/** The profile set-up page (src/pages/Profile.jsx): what submitting the
    form and going back do to the application state. The form itself is
    `ProfileForm.Form`. */
module ProfilePage {
  import opened Common
  import opened AppContext
  import opened FormRules
  import opened ProfileForm

  /** `handleSubmit`: a complete profile becomes the user's record and the
      quiz comes next; an incomplete one only shows its errors. */
  method HandleSubmit(page: Form, store: AppStore) returns (submitted: bool)
    modifies page, store
    ensures page.form == old(page.form)
    ensures page.errors == ProfileErrors(page.form)
    ensures submitted <==> Acceptable(page.form)
    ensures submitted ==> (store.state ==
      Reduce(Reduce(old(store.state), Action.SetUserInfo(FormRecord(page.form))), SetCurrentPage("quiz")))
    ensures !submitted ==> store.state == old(store.state)
  {
    submitted := page.ValidateForm();
    if submitted {
      store.SetUserInfo(FormRecord(page.form));
      store.SetCurrentPage("quiz");
    }
  }

  /** `handleBack`. */
  method HandleBack(store: AppStore)
    modifies store
    ensures store.state == Reduce(old(store.state), SetCurrentPage("welcome"))
  {
    store.SetCurrentPage("welcome");
  }

  /** After a submit the user is logged in with every profile field stored,
      the quiz results are untouched and the quiz page is current. */
  lemma SubmitStoresProfile(state: AppState, form: FormData)
    ensures var s := Reduce(Reduce(state, Action.SetUserInfo(FormRecord(form))), SetCurrentPage("quiz"));
      LoggedIn(s.user) && s.currentPage == "quiz" && s.quizResults == state.quizResults &&
      (forall f :: Key(f) in s.user && s.user[Key(f)] == Text(Read(form, f))) &&
      s.user["interests"] == TextList(form.interests)
  {
    var u := MergeUser(state.user, FormRecord(form));
    forall f ensures Key(f) in u && u[Key(f)] == Text(Read(form, f)) {
      assert Key(f) != "isLoggedIn";
    }
  }

  /** The edit page opens a submitted profile exactly as it was entered: a
      complete profile has a phone number, so no `mobile` fallback applies. */
  lemma SubmittedProfileReopens(state: AppState, form: FormData)
    requires Acceptable(form)
    ensures Prefill(Reduce(Reduce(state, Action.SetUserInfo(FormRecord(form))), SetCurrentPage("quiz")).user) == form
  {
    SubmitStoresProfile(state, form);
    TenDigitPhoneNotBlank(form.phoneNumber);
    PrefillReadsBack(Reduce(Reduce(state, Action.SetUserInfo(FormRecord(form))), SetCurrentPage("quiz")).user, form);
  }
}

/** The profile edit page (src/pages/ProfileEdit.jsx): the form opens on the
    stored user (`ProfileForm.Form.Prefilled`); saving merges it into the
    user, cancelling returns to the dashboard, logging out resets. */
module ProfileEditPage {
  import opened Common
  import opened AppContext
  import opened ProfileForm

  /** `{...user, ...formData}`: the stored user with the form's fields laid
      over it. */
  function SavedUser(user: Record, form: FormData): (r: Record)
    ensures r.Keys == user.Keys + FormRecord(form).Keys
    ensures forall f :: r[Key(f)] == Text(Read(form, f))
    ensures r["interests"] == TextList(form.interests)
    ensures forall k :: k in user && k !in FormRecord(form) ==> r[k] == user[k]
  {
    user + FormRecord(form)
  }

  /** `handleSubmit`: a complete form is merged into the user and the
      dashboard comes next; an incomplete one changes nothing but the
      errors shown. */
  method HandleSubmit(page: Form, store: AppStore) returns (saved: bool)
    modifies page, store
    ensures page.form == old(page.form)
    ensures page.errors == ProfileErrors(page.form)
    ensures saved <==> Acceptable(page.form)
    ensures saved ==> (store.state ==
      Reduce(Reduce(old(store.state), Action.SetUserInfo(SavedUser(old(store.state).user, page.form))),
        SetCurrentPage("dashboard")))
    ensures !saved ==> store.state == old(store.state)
  {
    saved := page.ValidateForm();
    if !saved {
      return;
    }
    var updated := SavedUser(store.state.user, page.form);
    store.SetUserInfo(updated);
    store.SetCurrentPage("dashboard");
  }

  /** `handleCancel`: back to the dashboard, the user untouched. */
  method HandleCancel(store: AppStore)
    modifies store
    ensures store.state == Reduce(old(store.state), SetCurrentPage("dashboard"))
  {
    store.SetCurrentPage("dashboard");
  }

  /** `handleLogout`, with the answer to the confirmation dialog as a
      parameter: a confirmed logout resets the state and shows the welcome
      page; a declined one changes nothing. */
  method HandleLogout(store: AppStore, confirmed: bool)
    modifies store
    ensures confirmed ==> store.state == Reduce(Reduce(old(store.state), ResetState), SetCurrentPage("welcome"))
    ensures !confirmed ==> store.state == old(store.state)
  {
    if confirmed {
      store.ResetState();
      store.SetCurrentPage("welcome");
    }
  }

  /** Logging out lands exactly on the initial state, whatever came before. */
  lemma LogoutIsInitial(state: AppState)
    ensures Reduce(Reduce(state, ResetState), SetCurrentPage("welcome")) == InitialState
  {
  }

  /** Saving keeps every user field the form does not have, overwrites the
      form's fields and logs the user in. */
  lemma SaveKeepsOtherFields(user: Record, form: FormData)
    ensures var u := MergeUser(user, SavedUser(user, form));
      LoggedIn(u) &&
      (forall k :: k in user && k !in FormRecord(form) && k != "isLoggedIn" ==> u[k] == user[k]) &&
      (forall f :: u[Key(f)] == Text(Read(form, f))) &&
      u["interests"] == TextList(form.interests)
  {
    var u := MergeUser(user, SavedUser(user, form));
    forall f ensures u[Key(f)] == Text(Read(form, f)) {
      assert Key(f) != "isLoggedIn";
    }
  }

  /** A saved form with a phone number opens again exactly as it was saved. */
  lemma SavedFormReopens(user: Record, form: FormData)
    requires form.phoneNumber != ""
    ensures Prefill(MergeUser(user, SavedUser(user, form))) == form
  {
    SaveKeepsOtherFields(user, form);
    PrefillReadsBack(MergeUser(user, SavedUser(user, form)), form);
  }
}

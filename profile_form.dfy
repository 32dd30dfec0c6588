/** The profile form shared by the profile set-up page and the profile edit
    page (src/pages/Profile.jsx, src/pages/ProfileEdit.jsx): its fields, the
    class / board / stream cascade, interest toggling, the option tables and
    the validation rules. Both pages declare the same tables and handlers. */
module ProfileForm {
  import opened Common
  import opened FormRules

  /** The text inputs of the form, by their `name` attribute. */
  datatype Field = Name | DateOfBirth | SchoolClass | Board | Stream | Email | PhoneNumber | Location

  function Key(f: Field): string
  {
    match f
    case Name => "name"
    case DateOfBirth => "dateOfBirth"
    case SchoolClass => "class"
    case Board => "board"
    case Stream => "stream"
    case Email => "email"
    case PhoneNumber => "phoneNumber"
    case Location => "location"
  }

  datatype FormData = FormData(
    name: string, dateOfBirth: string, schoolClass: string, board: string, stream: string,
    email: string, phoneNumber: string, location: string, interests: seq<string>)

  const EmptyForm := FormData("", "", "", "", "", "", "", "", [])

  function Read(form: FormData, f: Field): string
  {
    match f
    case Name => form.name
    case DateOfBirth => form.dateOfBirth
    case SchoolClass => form.schoolClass
    case Board => form.board
    case Stream => form.stream
    case Email => form.email
    case PhoneNumber => form.phoneNumber
    case Location => form.location
  }

  /** `{...prev, [name]: value}`. */
  function Write(form: FormData, f: Field, v: string): (r: FormData)
    ensures Read(r, f) == v
    ensures forall g :: g != f ==> Read(r, g) == Read(form, g)
    ensures r.interests == form.interests
  {
    match f
    case Name => form.(name := v)
    case DateOfBirth => form.(dateOfBirth := v)
    case SchoolClass => form.(schoolClass := v)
    case Board => form.(board := v)
    case Stream => form.(stream := v)
    case Email => form.(email := v)
    case PhoneNumber => form.(phoneNumber := v)
    case Location => form.(location := v)
  }

  /** The text fields a change of `f` blanks: a new class invalidates the board
      and stream, a new board the stream. */
  function Cleared(f: Field): set<Field>
  {
    match f
    case SchoolClass => {Board, Stream}
    case Board => {Stream}
    case _ => {}
  }

  /** A new board or stream also empties the interests; a new class does not. */
  predicate ClearsInterests(f: Field)
  {
    f == Board || f == Stream
  }

  /** `handleInputChange` on the form data: the field takes the value, the
      fields depending on it are reset, everything else is kept. */
  function Cascade(form: FormData, f: Field, v: string): (r: FormData)
    ensures Read(r, f) == v
    ensures forall g :: g in Cleared(f) ==> Read(r, g) == ""
    ensures forall g :: g != f && g !in Cleared(f) ==> Read(r, g) == Read(form, g)
    ensures r.interests == (if ClearsInterests(f) then [] else form.interests)
  {
    var r := Write(form, f, v);
    match f
    case SchoolClass => r.(board := "", stream := "")
    case Board => r.(stream := "", interests := [])
    case Stream => r.(interests := [])
    case _ => r
  }

  /** Entering the same value again changes nothing further. */
  lemma CascadeIdempotent(form: FormData, f: Field, v: string)
    ensures Cascade(Cascade(form, f, v), f, v) == Cascade(form, f, v)
  {
  }

  // ---------------------------------------------------------------------
  // Option tables

  /** The stream values each board offers; state boards use `default`. */
  const StreamOptions: map<string, seq<string>> := map[
    "cbse" := ["science-pcm", "science-pcb", "science-pcmb", "commerce", "humanities"],
    "icse" := ["science", "commerce", "arts"],
    "default" := ["science", "commerce", "arts"]]

  /** The interest values each stream offers. */
  const InterestOptions: map<string, seq<string>> := map[
    "science-pcm" := ["mathematics", "physics", "engineering", "technology", "robotics", "space"],
    "science-pcb" := ["biology", "medicine", "research", "environment", "genetics", "nutrition"],
    "science-pcmb" := ["mathematics", "physics", "biology", "medicine", "engineering", "research"],
    "science" := ["physics", "chemistry", "mathematics", "biology", "technology", "research"],
    "commerce" := ["business", "finance", "accounting", "economics", "entrepreneurship", "marketing"],
    "humanities" := ["literature", "history", "psychology", "sociology", "politics", "arts"],
    "arts" := ["literature", "history", "arts", "music", "psychology", "social-work"]]

  /** `getAvailableStreams`: nothing before a board is chosen, the board's own
      list when it has one, the default list otherwise. */
  function AvailableStreams(board: string): seq<string>
  {
    if board == "" then []
    else if board in StreamOptions then StreamOptions[board]
    else StreamOptions["default"]
  }

  /** `getAvailableInterests`: nothing before a stream is chosen or for a
      stream without a list. */
  function AvailableInterests(stream: string): seq<string>
  {
    if stream == "" then []
    else if stream in InterestOptions then InterestOptions[stream]
    else []
  }

  /** Every chosen board offers streams, and every stream a board offers has
      interests to pick from, so the interest requirement can always be met. */
  lemma OfferedStreamsHaveInterests(board: string)
    ensures board != "" ==> AvailableStreams(board) != []
    ensures forall s :: s in AvailableStreams(board) ==> |AvailableInterests(s)| == 6
  {
    forall s | s in AvailableStreams(board) ensures |AvailableInterests(s)| == 6 {
      if board == "cbse" {
        assert s in StreamOptions["cbse"];
      } else {
        assert s in ["science", "commerce", "arts"];
      }
    }
  }

  /** Every state board, and any board without a list of its own, is offered
      the default streams. */
  lemma OtherBoardsShareDefault(board: string)
    requires board != "" && board != "cbse" && board != "icse"
    ensures AvailableStreams(board) == ["science", "commerce", "arts"]
  {
  }

  // ---------------------------------------------------------------------
  // Validation

  /** The classes for which board, stream and interests are asked. */
  predicate SchoolYears(schoolClass: string)
  {
    schoolClass == "11th" || schoolClass == "12th"
  }

  /** What a complete profile is. */
  predicate Acceptable(form: FormData)
  {
    !Blank(form.name) && form.dateOfBirth != "" && form.schoolClass != "" &&
    (SchoolYears(form.schoolClass) ==> form.board != "" && form.stream != "" && form.interests != []) &&
    EmailLike(form.email) && TenDigitPhone(form.phoneNumber) && !Blank(form.location)
  }

  /** Where an error is shown: under a text input or under the interests. */
  datatype ErrorKey = On(field: Field) | OnInterests

  type Errors = map<ErrorKey, string>

  /** The rule `validateForm` checks for each error key, with the message it
      records when the rule is broken. */
  function Problem(form: FormData, key: ErrorKey): Option<string>
  {
    var school := SchoolYears(form.schoolClass);
    match key
    case On(Name) => if Blank(form.name) then Some("Name is required") else None
    case On(DateOfBirth) => if form.dateOfBirth == "" then Some("Date of birth is required") else None
    case On(SchoolClass) => if form.schoolClass == "" then Some("Please select your class") else None
    case On(Board) => if school && form.board == "" then Some("Please select your board") else None
    case On(Stream) => if school && form.stream == "" then Some("Please select your stream") else None
    case On(Email) => EmailRule(form.email)
    case On(PhoneNumber) => PhoneRule(form.phoneNumber)
    case On(Location) => if Blank(form.location) then Some("Location is required") else None
    case OnInterests =>
      if school && form.stream != "" && form.interests == [] then Some("Please select at least one area of interest")
      else None
  }

  const ErrorKeys: set<ErrorKey> := {
    On(Name), On(DateOfBirth), On(SchoolClass), On(Board), On(Stream), On(Email), On(PhoneNumber),
    On(Location), OnInterests}

  lemma ErrorKeysComplete(key: ErrorKey)
    ensures key in ErrorKeys
  {
    match key
    case OnInterests =>
    case On(f) =>
      match f
      case Name =>
      case DateOfBirth =>
      case SchoolClass =>
      case Board =>
      case Stream =>
      case Email =>
      case PhoneNumber =>
      case Location =>
  }

  /** The errors `validateForm` records: every broken rule with its message. */
  function ProfileErrors(form: FormData): (r: Errors)
    ensures forall k :: k in r <==> Problem(form, k).Some?
    ensures forall k :: k in r ==> r[k] == Problem(form, k).value
  {
    map k | k in ErrorKeys && Problem(form, k).Some? :: Problem(form, k).value
  }

  /** The rule table as a function of the key. */
  ghost function Rules(form: FormData): ErrorKey -> Option<string>
  {
    k => Problem(form, k)
  }

  /** The order in which `validateForm` checks the rules. */
  const RuleOrder: seq<ErrorKey> := [
    On(Name), On(DateOfBirth), On(SchoolClass), On(Board), On(Stream), On(Email), On(PhoneNumber),
    On(Location), OnInterests]

  /** Once every rule is checked, the recorded errors are the profile's. */
  lemma FoundAll(form: FormData)
    ensures Found(Rules(form), RuleOrder) == ProfileErrors(form)
  {
    FoundMeaning(Rules(form), RuleOrder);
    forall k ensures k in RuleOrder {
      ErrorKeysComplete(k);
    }
  }

  /** The name rule of `validateForm`: a blank name is missing. */
  method CheckName(form: FormData, errors: Errors, ghost done: seq<ErrorKey>) returns (next: Errors)
    requires errors == Found(Rules(form), done)
    ensures next == Found(Rules(form), done + [On(Name)])
  {
    next := errors;
    if Blank(form.name) {
      next := next[On(Name) := "Name is required"];
    }
    CheckRule(Rules(form), done, On(Name));
  }

  /** The date-of-birth rule of `validateForm`. */
  method CheckDateOfBirth(form: FormData, errors: Errors, ghost done: seq<ErrorKey>) returns (next: Errors)
    requires errors == Found(Rules(form), done)
    ensures next == Found(Rules(form), done + [On(DateOfBirth)])
  {
    next := errors;
    if form.dateOfBirth == "" {
      next := next[On(DateOfBirth) := "Date of birth is required"];
    }
    CheckRule(Rules(form), done, On(DateOfBirth));
  }

  /** The class rule of `validateForm`. */
  method CheckSchoolClass(form: FormData, errors: Errors, ghost done: seq<ErrorKey>) returns (next: Errors)
    requires errors == Found(Rules(form), done)
    ensures next == Found(Rules(form), done + [On(SchoolClass)])
  {
    next := errors;
    if form.schoolClass == "" {
      next := next[On(SchoolClass) := "Please select your class"];
    }
    CheckRule(Rules(form), done, On(SchoolClass));
  }

  /** The board rule of `validateForm`: only a class 11 or 12 student needs one. */
  method CheckBoard(form: FormData, errors: Errors, ghost done: seq<ErrorKey>) returns (next: Errors)
    requires errors == Found(Rules(form), done)
    ensures next == Found(Rules(form), done + [On(Board)])
  {
    next := errors;
    if SchoolYears(form.schoolClass) && form.board == "" {
      next := next[On(Board) := "Please select your board"];
    }
    CheckRule(Rules(form), done, On(Board));
  }

  /** The stream rule of `validateForm`: only a class 11 or 12 student needs one. */
  method CheckStream(form: FormData, errors: Errors, ghost done: seq<ErrorKey>) returns (next: Errors)
    requires errors == Found(Rules(form), done)
    ensures next == Found(Rules(form), done + [On(Stream)])
  {
    next := errors;
    if SchoolYears(form.schoolClass) && form.stream == "" {
      next := next[On(Stream) := "Please select your stream"];
    }
    CheckRule(Rules(form), done, On(Stream));
  }

  /** The e-mail rule of `validateForm`: a blank address is missing, one the
      pattern rejects is invalid. */
  method CheckEmail(form: FormData, errors: Errors, ghost done: seq<ErrorKey>) returns (next: Errors)
    requires errors == Found(Rules(form), done)
    ensures next == Found(Rules(form), done + [On(Email)])
  {
    next := errors;
    if Blank(form.email) {
      next := next[On(Email) := "Email is required"];
    } else if !EmailLike(form.email) {
      next := next[On(Email) := "Please enter a valid email"];
    }
    CheckRule(Rules(form), done, On(Email));
  }

  /** The phone rule of `validateForm`: a blank number is missing, one
      without exactly ten digits is invalid. */
  method CheckPhone(form: FormData, errors: Errors, ghost done: seq<ErrorKey>) returns (next: Errors)
    requires errors == Found(Rules(form), done)
    ensures next == Found(Rules(form), done + [On(PhoneNumber)])
  {
    next := errors;
    if Blank(form.phoneNumber) {
      next := next[On(PhoneNumber) := "Phone number is required"];
    } else if !TenDigitPhone(form.phoneNumber) {
      next := next[On(PhoneNumber) := "Please enter a valid 10-digit phone number"];
    }
    CheckRule(Rules(form), done, On(PhoneNumber));
  }

  /** The location rule of `validateForm`. */
  method CheckLocation(form: FormData, errors: Errors, ghost done: seq<ErrorKey>) returns (next: Errors)
    requires errors == Found(Rules(form), done)
    ensures next == Found(Rules(form), done + [On(Location)])
  {
    next := errors;
    if Blank(form.location) {
      next := next[On(Location) := "Location is required"];
    }
    CheckRule(Rules(form), done, On(Location));
  }

  /** The interests rule of `validateForm`: a class 11 or 12 student with a
      stream must pick at least one interest. */
  method CheckInterests(form: FormData, errors: Errors, ghost done: seq<ErrorKey>) returns (next: Errors)
    requires errors == Found(Rules(form), done)
    ensures next == Found(Rules(form), done + [OnInterests])
  {
    next := errors;
    if SchoolYears(form.schoolClass) && form.stream != "" && form.interests == [] {
      next := next[OnInterests := "Please select at least one area of interest"];
    }
    CheckRule(Rules(form), done, OnInterests);
  }

  /** A form records no error exactly when the profile is complete. */
  lemma NoErrorsIffAcceptable(form: FormData)
    ensures |ProfileErrors(form)| == 0 <==> Acceptable(form)
  {
    EmailLikeNotBlank(form.email);
    TenDigitPhoneNotBlank(form.phoneNumber);
    var r := ProfileErrors(form);
    if r == map[] {
      assert Problem(form, On(Name)).None? && Problem(form, On(Email)).None?;
      assert Problem(form, On(PhoneNumber)).None? && Problem(form, OnInterests).None?;
      assert Problem(form, On(Board)).None? && Problem(form, On(Stream)).None?;
      assert Problem(form, On(DateOfBirth)).None? && Problem(form, On(SchoolClass)).None?;
      assert Problem(form, On(Location)).None?;
    }
    if Acceptable(form) {
      forall k | k in r ensures false {
        ErrorKeysComplete(k);
      }
      assert r == map[];
    }
  }

  /** Choosing a new stream for a class 11 or 12 student empties the
      interests, so the form stays incomplete until one is picked again. */
  lemma NewStreamNeedsInterests(form: FormData, v: string)
    requires SchoolYears(form.schoolClass) && v != ""
    ensures !Acceptable(Cascade(form, Stream, v))
    ensures OnInterests in ProfileErrors(Cascade(form, Stream, v))
  {
    var r := Cascade(form, Stream, v);
    assert r.schoolClass == Read(r, SchoolClass) == Read(form, SchoolClass);
  }

  /** A new class keeps the interests picked for the stream it clears. */
  lemma NewClassKeepsInterests(form: FormData, v: string)
    ensures Cascade(form, SchoolClass, v).stream == ""
    ensures Cascade(form, SchoolClass, v).interests == form.interests
  {
    assert Stream in Cleared(SchoolClass);
  }

  /** The form as the user record fields `setUserInfo` receives. */
  function FormRecord(form: FormData): (r: Record)
    ensures forall f :: Key(f) in r && r[Key(f)] == Text(Read(form, f))
    ensures "interests" in r && r["interests"] == TextList(form.interests)
  {
    map["name" := Text(form.name), "dateOfBirth" := Text(form.dateOfBirth), "class" := Text(form.schoolClass),
        "board" := Text(form.board), "stream" := Text(form.stream), "email" := Text(form.email),
        "phoneNumber" := Text(form.phoneNumber), "location" := Text(form.location),
        "interests" := TextList(form.interests)]
  }

  /** `user.<key> || ''` for a text field. */
  function TextOf(user: Record, key: string): string
  {
    match Get(user, key)
    case Some(Text(s)) => s
    case _ => ""
  }

  /** `user.interests || []`. */
  function ListOf(user: Record, key: string): seq<string>
  {
    match Get(user, key)
    case Some(TextList(xs)) => xs
    case _ => []
  }

  /** The edit page's initial form: each field from the user record, empty
      when absent; the phone from `phoneNumber`, falling back to `mobile`. */
  function Prefill(user: Record): (r: FormData)
    ensures forall f :: f != PhoneNumber ==> Read(r, f) == TextOf(user, Key(f))
    ensures TextOf(user, "phoneNumber") != "" ==> r.phoneNumber == TextOf(user, "phoneNumber")
    ensures TextOf(user, "phoneNumber") == "" ==> r.phoneNumber == TextOf(user, "mobile")
    ensures r.interests == ListOf(user, "interests")
  {
    var phone := TextOf(user, "phoneNumber");
    FormData(
      TextOf(user, "name"), TextOf(user, "dateOfBirth"), TextOf(user, "class"),
      TextOf(user, "board"), TextOf(user, "stream"), TextOf(user, "email"),
      if phone != "" then phone else TextOf(user, "mobile"),
      TextOf(user, "location"), ListOf(user, "interests"))
  }

  /** A user record holding a form's fields opens that form again, provided
      the phone number is not empty (an empty one falls back to `mobile`). */
  lemma PrefillReadsBack(user: Record, form: FormData)
    requires forall f :: Key(f) in user && user[Key(f)] == Text(Read(form, f))
    requires "interests" in user && user["interests"] == TextList(form.interests)
    requires form.phoneNumber != ""
    ensures Prefill(user) == form
  {
    var r := Prefill(user);
    assert user[Key(Name)] == Text(form.name) && user[Key(DateOfBirth)] == Text(form.dateOfBirth);
    assert user[Key(SchoolClass)] == Text(form.schoolClass) && user[Key(Board)] == Text(form.board);
    assert user[Key(Stream)] == Text(form.stream) && user[Key(Email)] == Text(form.email);
    assert user[Key(PhoneNumber)] == Text(form.phoneNumber) && user[Key(Location)] == Text(form.location);
  }

  /** The state of a profile form page: the form data and the recorded
      errors. */
  class Form {
    var form: FormData
    var errors: Errors

    /** The set-up page starts empty. */
    constructor()
      ensures form == EmptyForm && errors == map[]
    {
      form := EmptyForm;
      errors := map[];
    }

    /** The edit page starts from the user record. */
    constructor Prefilled(user: Record)
      ensures form == Prefill(user) && errors == map[]
    {
      form := Prefill(user);
      errors := map[];
    }

    /** `handleInputChange`. */
    method HandleInputChange(f: Field, value: string)
      modifies this
      ensures form == Cascade(old(form), f, value)
      ensures errors == ClearError(old(errors), On(f))
    {
      form := Write(form, f, value);
      if f == SchoolClass {
        form := form.(board := "", stream := "");
      }
      if f == Board {
        form := form.(stream := "", interests := []);
      }
      if f == Stream {
        form := form.(interests := []);
      }
      if On(f) in errors && errors[On(f)] != "" {
        errors := errors[On(f) := ""];
      }
    }

    /** `handleInterestToggle`. */
    method HandleInterestToggle(interest: string)
      modifies this
      ensures form == old(form).(interests := Toggle(old(form).interests, interest))
      ensures errors == old(errors)
    {
      form := form.(interests := Toggle(form.interests, interest));
    }

    /** `validateForm`: the errors are collected rule by rule and replace the
        recorded ones; the form is valid when none was found. */
    method ValidateForm() returns (valid: bool)
      modifies this
      ensures form == old(form)
      ensures errors == ProfileErrors(form)
      ensures valid <==> Acceptable(form)
    {
      var f := form;
      var newErrors: Errors := map[];
      ghost var done: seq<ErrorKey> := [];
      newErrors := CheckName(f, newErrors, done);
      done := done + [On(Name)];
      newErrors := CheckDateOfBirth(f, newErrors, done);
      done := done + [On(DateOfBirth)];
      newErrors := CheckSchoolClass(f, newErrors, done);
      done := done + [On(SchoolClass)];
      newErrors := CheckBoard(f, newErrors, done);
      done := done + [On(Board)];
      newErrors := CheckStream(f, newErrors, done);
      done := done + [On(Stream)];
      newErrors := CheckEmail(f, newErrors, done);
      done := done + [On(Email)];
      newErrors := CheckPhone(f, newErrors, done);
      done := done + [On(PhoneNumber)];
      newErrors := CheckLocation(f, newErrors, done);
      done := done + [On(Location)];
      newErrors := CheckInterests(f, newErrors, done);
      done := done + [OnInterests];
      assert done == RuleOrder;
      FoundAll(f);
      NoErrorsIffAcceptable(f);
      errors := newErrors;
      valid := |newErrors| == 0;
    }
  }
}

/** The validation rules the three form pages share
    (src/pages/Profile.jsx, src/pages/ProfileEdit.jsx, src/pages/Auth.jsx):
    the e-mail pattern, the ten-digit phone rule and the clearing of a field's
    error while the user types. */
module FormRules {
  import opened Common

  // ---------------------------------------------------------------------
  // The e-mail pattern `/\S+@\S+\.\S+/`

  /** An `@` at `at` and a `.` at `dot` delimit a match: a non-space character
      right before the `@`, a non-empty run of non-space characters between the
      two, and a non-space character right after the `.`. */
  predicate EmailShapeAt(s: string, at: nat, dot: nat)
  {
    1 <= at && at + 1 < dot && dot + 1 < |s| &&
    s[at] == '@' && s[dot] == '.' && !IsSpace(s[at - 1]) && !IsSpace(s[dot + 1]) &&
    forall k :: at < k < dot ==> !IsSpace(s[k])
  }

  /** `/\S+@\S+\.\S+/.test(s)`: the pattern is unanchored, so a match anywhere
      in the text will do. */
  predicate EmailLike(s: string)
  {
    exists at: nat, dot: nat | at < dot < |s| :: EmailShapeAt(s, at, dot)
  }

  /** A text the pattern accepts is never blank, so the "required" check
      only decides which message is shown. */
  lemma EmailLikeNotBlank(s: string)
    ensures EmailLike(s) ==> !Blank(s)
  {
    if EmailLike(s) {
      var at: nat, dot: nat :| at < dot < |s| && EmailShapeAt(s, at, dot);
      assert s[at] == '@';
    }
  }

  /** Examples of the pattern at work, beside the general `EmailRule`: a
      plain address passes; a missing top-level part, an empty middle or a
      space before the `@` fails. */
  lemma EmailExamples()
    ensures EmailLike("a@b.c")
    ensures !EmailLike("a@b")
    ensures !EmailLike("a@.c")
    ensures !EmailLike("a @b.c")
  {
    assert EmailShapeAt("a@b.c", 1, 3);
    forall at: nat, dot: nat ensures !EmailShapeAt("a@b", at, dot) {
      if 1 <= at && at + 1 < dot && dot + 1 < 3 {
        assert false;
      }
    }
    var spaced := "a @b.c";
    forall at: nat, dot: nat ensures !EmailShapeAt(spaced, at, dot) {
      if 1 <= at && at + 1 < dot && dot + 1 < |spaced| && spaced[at] == '@' {
        assert at == 2 && IsSpace(spaced[at - 1]);
      }
    }
  }

  /** The e-mail check of the profile and sign-in forms: the message shown,
      if any. A blank address is missing; any other address is accepted
      exactly when the pattern matches. */
  function EmailRule(email: string): (r: Option<string>)
    ensures r == Some("Email is required") <==> Blank(email)
    ensures r.None? <==> EmailLike(email)
  {
    EmailLikeNotBlank(email);
    if Blank(email) then Some("Email is required")
    else if !EmailLike(email) then Some("Please enter a valid email")
    else None
  }

  // ---------------------------------------------------------------------
  // The phone rule `/^\d{10}$/.test(s.replace(/\D/g, ''))`

  /** The ASCII digits of `s`, every other character removed. */
  function Digits(s: string): (r: string)
    ensures |r| <= |s|
    ensures forall c :: c in r <==> c in s && IsDigit(c)
  {
    Filter(s, IsDigit)
  }

  predicate TenDigitPhone(s: string)
  {
    |Digits(s)| == 10
  }

  /** A number with ten digits is never blank. */
  lemma TenDigitPhoneNotBlank(s: string)
    ensures TenDigitPhone(s) ==> !Blank(s)
  {
    if TenDigitPhone(s) {
      var d := Digits(s);
      assert d[0] in d;
      var i :| 0 <= i < |s| && s[i] == d[0];
    }
  }

  /** The phone check of the profile forms: a blank number is missing; any
      other number is accepted exactly when it has ten digits. */
  function PhoneRule(phone: string): (r: Option<string>)
    ensures r == Some("Phone number is required") <==> Blank(phone)
    ensures r.None? <==> TenDigitPhone(phone)
  {
    TenDigitPhoneNotBlank(phone);
    if Blank(phone) then Some("Phone number is required")
    else if !TenDigitPhone(phone) then Some("Please enter a valid 10-digit phone number")
    else None
  }

  /** Separators are ignored: inserting a non-digit anywhere changes nothing. */
  lemma DigitsIgnoreSeparator(a: string, c: char, b: string)
    requires !IsDigit(c)
    ensures Digits(a + [c] + b) == Digits(a + b)
  {
    FilterConcat(a + [c], b, IsDigit);
    FilterConcat(a, [c], IsDigit);
    FilterConcat(a, b, IsDigit);
  }

  // ---------------------------------------------------------------------
  // Errors

  /** `if (errors[name]) setErrors({...errors, [name]: ''})`: typing into a
      field that shows an error blanks that error and nothing else. The
      errors are keyed by the field they belong to. */
  function ClearError<K>(errors: map<K, string>, key: K): (r: map<K, string>)
    ensures r.Keys == errors.Keys
    ensures key in r ==> r[key] == ""
    ensures forall k :: k in errors && k != key ==> r[k] == errors[k]
  {
    if key in errors && errors[key] != "" then errors[key := ""] else errors
  }

  /** The errors a form records when it checks the rules for the keys of
      `done` one after the other: each broken rule adds its message, as given
      by `verdict`. */
  ghost function Found<K>(verdict: K -> Option<string>, done: seq<K>): map<K, string>
  {
    if done == [] then map[]
    else
      var earlier := Found(verdict, done[..|done| - 1]);
      var key := done[|done| - 1];
      if verdict(key).Some? then earlier[key := verdict(key).value] else earlier
  }

  /** Checking one more rule records its message when it is broken and
      changes nothing otherwise. */
  lemma CheckRule<K>(verdict: K -> Option<string>, done: seq<K>, key: K)
    ensures verdict(key).Some? ==> Found(verdict, done + [key]) == Found(verdict, done)[key := verdict(key).value]
    ensures verdict(key).None? ==> Found(verdict, done + [key]) == Found(verdict, done)
  {
    assert (done + [key])[..|done|] == done;
  }

  /** The errors found are exactly the broken rules among the checked keys,
      each with its message. */
  lemma {:induction false} FoundMeaning<K>(verdict: K -> Option<string>, done: seq<K>)
    ensures forall k :: k in Found(verdict, done) <==> k in done && verdict(k).Some?
    ensures forall k :: k in Found(verdict, done) ==> Found(verdict, done)[k] == verdict(k).value
  {
    if done != [] {
      var earlier := done[..|done| - 1];
      FoundMeaning(verdict, earlier);
      assert done == earlier + [done[|done| - 1]];
    }
  }

  /** Clearing twice is clearing once. */
  lemma ClearErrorIdempotent<K>(errors: map<K, string>, key: K)
    ensures ClearError(ClearError(errors, key), key) == ClearError(errors, key)
  {
  }
}

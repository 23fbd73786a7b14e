/** Password strength on the registration page (app/register/page.tsx,
    `getPasswordStrength` and the weak-password branch of `handleSubmit`).

    The score counts five criteria; the label is read off the score. The
    regular expressions are ASCII character classes, and the length is the
    number of characters of the string. */
module PasswordStrength {

  predicate IsUpper(c: char) { 'A' <= c <= 'Z' }
  predicate IsLower(c: char) { 'a' <= c <= 'z' }
  predicate IsDigit(c: char) { '0' <= c <= '9' }

  /** `[\W_]`: anything outside `[A-Za-z0-9]`, so `_` counts as special. */
  predicate IsSpecial(c: char)
  {
    !(IsUpper(c) || IsLower(c) || IsDigit(c))
  }

  datatype Criterion = MinLength | Upper | Lower | Digit | Special

  const MinimumLength := 8

  /** Whether the password satisfies one criterion. */
  predicate Holds(k: Criterion, p: string)
  {
    match k
    case MinLength => |p| >= MinimumLength
    case Upper => exists i :: 0 <= i < |p| && IsUpper(p[i])
    case Lower => exists i :: 0 <= i < |p| && IsLower(p[i])
    case Digit => exists i :: 0 <= i < |p| && IsDigit(p[i])
    case Special => exists i :: 0 <= i < |p| && IsSpecial(p[i])
  }

  const AllCriteria := [MinLength, Upper, Lower, Digit, Special]

  function Indicator(b: bool): nat
  {
    if b then 1 else 0
  }

  /** The score: one point per satisfied criterion, added in the source's
      order. */
  function Score(p: string): (score: nat)
    ensures score <= |AllCriteria|
    ensures score == |AllCriteria| <==> forall k :: Holds(k, p)
    ensures score == 0 <==> forall k :: !Holds(k, p)
  {
    Indicator(Holds(MinLength, p)) + Indicator(Holds(Upper, p)) + Indicator(Holds(Lower, p))
      + Indicator(Holds(Digit, p)) + Indicator(Holds(Special, p))
  }

  /** The number of criteria in `ks` that the password satisfies. */
  function CountSatisfied(ks: seq<Criterion>, p: string): (n: nat)
    ensures n <= |ks|
    decreases |ks|
  {
    if |ks| == 0 then 0 else Indicator(Holds(ks[0], p)) + CountSatisfied(ks[1..], p)
  }

  /** The score is exactly the number of satisfied criteria. */
  lemma ScoreCountsCriteria(p: string)
    ensures Score(p) == CountSatisfied(AllCriteria, p)
  {
  }

  datatype Strength = Weak | Medium | Strong | VeryStrong

  /** The order of the labels, weakest first. */
  function Rank(s: Strength): nat
  {
    match s
    case Weak => 0
    case Medium => 1
    case Strong => 2
    case VeryStrong => 3
  }

  /** Scores up to 2 are Weak, then one label per further point. */
  function Label(score: nat): (s: Strength)
    ensures score <= 5 ==> Rank(s) == if score <= 2 then 0 else score - 2
    ensures s == Weak <==> score <= 2
  {
    if score <= 2 then Weak
    else if score == 3 then Medium
    else if score == 4 then Strong
    else VeryStrong
  }

  /** A higher score never yields a weaker label. */
  lemma LabelMonotone(a: nat, b: nat)
    requires a <= b
    ensures Rank(Label(a)) <= Rank(Label(b))
  {
  }

  function GetPasswordStrength(p: string): (s: Strength)
    ensures s == Weak <==> Score(p) <= 2
    ensures s == VeryStrong <==> forall k :: Holds(k, p)
  {
    Label(Score(p))
  }

  /** Appending a character keeps every satisfied criterion satisfied. */
  lemma AppendKeepsCriterion(k: Criterion, p: string, c: char)
    requires Holds(k, p)
    ensures Holds(k, p + [c])
  {
    var q := p + [c];
    match k
    case MinLength =>
    case Upper =>
      var i :| 0 <= i < |p| && IsUpper(p[i]);
      assert q[i] == p[i];
    case Lower =>
      var i :| 0 <= i < |p| && IsLower(p[i]);
      assert q[i] == p[i];
    case Digit =>
      var i :| 0 <= i < |p| && IsDigit(p[i]);
      assert q[i] == p[i];
    case Special =>
      var i :| 0 <= i < |p| && IsSpecial(p[i]);
      assert q[i] == p[i];
  }

  /** Typing one more character never makes the password weaker. */
  lemma AppendNeverWeakens(p: string, c: char)
    ensures Score(p) <= Score(p + [c])
    ensures Rank(GetPasswordStrength(p)) <= Rank(GetPasswordStrength(p + [c]))
  {
    forall k | Holds(k, p)
      ensures Holds(k, p + [c])
    {
      AppendKeepsCriterion(k, p, c);
    }
    LabelMonotone(Score(p), Score(p + [c]));
  }

  /** The underscore alone satisfies the special-character criterion. */
  lemma UnderscoreIsSpecial(p: string, i: int)
    requires 0 <= i < |p| && p[i] == '_'
    ensures Holds(Special, p)
  {
  }

  /** Two sample passwords: all lower-case letters of length 8 is Weak, and
      "Passw0rd!" satisfies everything. */
  lemma SamplePasswords()
    ensures GetPasswordStrength("password") == Weak
    ensures GetPasswordStrength("Passw0rd!") == VeryStrong
  {
    var weak := "password";
    assert IsLower(weak[0]);
    assert !Holds(Upper, weak);
    assert !Holds(Digit, weak);
    assert !Holds(Special, weak);
    var strong := "Passw0rd!";
    assert IsUpper(strong[0]) && IsLower(strong[1]) && IsDigit(strong[5]) && IsSpecial(strong[8]);
    assert Holds(Upper, strong) && Holds(Lower, strong) && Holds(Digit, strong) && Holds(Special, strong);
  }

  /** The fields `handleSubmit` reads from the form. */
  datatype RegisterData = RegisterData(firstName: string, lastName: string, email: string, password: string, role: string)

  /** Either the form is rejected with a message, or `register` is called
      with the form data. */
  datatype SubmitOutcome = Rejected(error: string) | Register(data: RegisterData)

  const TooWeak := "Password is too weak. Please choose a stronger password."

  /** `handleSubmit` up to the `register` call: a Weak password is rejected
      before anything is sent; any other password goes on to `register`
      with the data unchanged. */
  function HandleSubmit(data: RegisterData): (r: SubmitOutcome)
    ensures r.Rejected? <==> Score(data.password) <= 2
    ensures r.Rejected? ==> r.error == TooWeak
    ensures r.Register? ==> r.data == data
  {
    if GetPasswordStrength(data.password) == Weak then Rejected(TooWeak) else Register(data)
  }
}

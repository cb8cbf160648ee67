/**
 * The field validators of the front end: the e-mail shape test
 * `/^[^\s@]+@[^\s@]+\.[^\s@]+$/`, the four password requirement flags and
 * "strong password".  The four screen components carry copies of the same
 * e-mail expression; all of them use `ValidEmail` here.
 */
module Validation {
  import opened Text
  import opened Wrappers

  // ---------------------------------------------------------------------------
  // E-mail test
  // ---------------------------------------------------------------------------

  /** The character class `[^\s@]`. */
  predicate EmailChar(c: char) {
    !IsWhitespace(c) && c != '@'
  }

  /** The states of a deterministic automaton for the expression: the local
      part before and after its first character, then the domain: nothing
      read, inside the name before the dot, just after the dot, and inside the
      top-level label. */
  datatype EmailState = Local0 | Local1 | Domain0 | Domain1 | Domain2 | Domain3

  function Step(q: EmailState, c: char): Option<EmailState> {
    match q
    case Local0 => if EmailChar(c) then Some(Local1) else None
    case Local1 => if c == '@' then Some(Domain0) else if EmailChar(c) then Some(Local1) else None
    case Domain0 => if EmailChar(c) then Some(Domain1) else None
    case Domain1 => if c == '.' then Some(Domain2) else if EmailChar(c) then Some(Domain1) else None
    case Domain2 => if EmailChar(c) then Some(Domain3) else None
    case Domain3 => if EmailChar(c) then Some(Domain3) else None
  }

  /** The automaton, started in `q` before position `i`, reads the rest of
      `s` and stops in its accepting state. */
  predicate AcceptsFrom(q: EmailState, s: string, i: nat)
    requires i <= |s|
    decreases |s| - i
  {
    if i == |s| then q == Domain3
    else match Step(q, s[i])
      case None => false
      case Some(q') => AcceptsFrom(q', s, i + 1)
  }

  /** `validarEmail(email)`: the regular expression matches the whole string. */
  predicate ValidEmail(s: string) {
    AcceptsFrom(Local0, s, 0)
  }

  /** The shape the expression describes, stated without the automaton: no
      white space, exactly one `@`, a non-empty part before it, and a dot
      after it with at least one character on each side. */
  ghost predicate EmailShape(s: string) {
    && (forall i :: 0 <= i < |s| ==> !IsWhitespace(s[i]))
    && exists k :: 0 < k < |s| && s[k] == '@'
         && (forall i :: 0 <= i < |s| && i != k ==> s[i] != '@')
         && exists j :: k + 1 < j < |s| - 1 && s[j] == '.'
  }

  ghost predicate EmailCharsBetween(s: string, lo: int, hi: int) {
    forall i :: lo <= i < hi && 0 <= i < |s| ==> EmailChar(s[i])
  }

  lemma {:induction false} Domain3Accepts(s: string, i: nat)
    requires i <= |s|
    ensures AcceptsFrom(Domain3, s, i) <==> EmailCharsBetween(s, i, |s|)
    decreases |s| - i
  {
    if i < |s| {
      Domain3Accepts(s, i + 1);
    }
  }

  lemma Domain2Accepts(s: string, i: nat)
    requires i <= |s|
    ensures AcceptsFrom(Domain2, s, i) <==> i < |s| && EmailCharsBetween(s, i, |s|)
  {
    if i < |s| {
      Domain3Accepts(s, i + 1);
    }
  }

  lemma {:induction false} Domain1Accepts(s: string, i: nat)
    requires i <= |s|
    ensures AcceptsFrom(Domain1, s, i) <==>
              EmailCharsBetween(s, i, |s|) && exists j :: i <= j < |s| - 1 && s[j] == '.'
    decreases |s| - i
  {
    if i < |s| {
      if s[i] == '.' {
        Domain2Accepts(s, i + 1);
      } else {
        Domain1Accepts(s, i + 1);
      }
    }
  }

  lemma Domain0Accepts(s: string, i: nat)
    requires i <= |s|
    ensures AcceptsFrom(Domain0, s, i) <==>
              EmailCharsBetween(s, i, |s|) && exists j :: i < j < |s| - 1 && s[j] == '.'
  {
    if i < |s| {
      Domain1Accepts(s, i + 1);
    }
  }

  lemma {:induction false} Local1Accepts(s: string, i: nat)
    requires i <= |s|
    ensures AcceptsFrom(Local1, s, i) <==>
              exists k :: i <= k < |s| && s[k] == '@' && EmailCharsBetween(s, i, k) && AcceptsFrom(Domain0, s, k + 1)
    decreases |s| - i
  {
    if i < |s| {
      if s[i] == '@' {
        assert EmailCharsBetween(s, i, i);
      } else if EmailChar(s[i]) {
        Local1Accepts(s, i + 1);
        if AcceptsFrom(Local1, s, i) {
          var k :| i + 1 <= k < |s| && s[k] == '@' && EmailCharsBetween(s, i + 1, k) && AcceptsFrom(Domain0, s, k + 1);
          assert EmailCharsBetween(s, i, k);
        }
      }
    }
  }

  /** The automaton accepts exactly the strings of the described shape. */
  lemma ValidEmailIffShape(s: string)
    ensures ValidEmail(s) <==> EmailShape(s)
  {
    if s != [] && EmailChar(s[0]) {
      Local1Accepts(s, 1);
      if ValidEmail(s) {
        var k :| 1 <= k < |s| && s[k] == '@' && EmailCharsBetween(s, 1, k) && AcceptsFrom(Domain0, s, k + 1);
        Domain0Accepts(s, k + 1);
        assert forall i :: 0 <= i < |s| && i != k ==> EmailChar(s[i]);
      }
      if EmailShape(s) {
        var k :| 0 < k < |s| && s[k] == '@'
         && (forall i :: 0 <= i < |s| && i != k ==> s[i] != '@')
         && exists j :: k + 1 < j < |s| - 1 && s[j] == '.';
        Domain0Accepts(s, k + 1);
      }
    }
  }

  /** The inputs the screens must refuse: white space anywhere, no `@`, or
      more than one `@`. */
  lemma EmailRejects(s: string)
    requires || (exists i :: 0 <= i < |s| && IsWhitespace(s[i]))
             || (forall i :: 0 <= i < |s| ==> s[i] != '@')
             || (exists i, j :: 0 <= i < j < |s| && s[i] == '@' && s[j] == '@')
    ensures !ValidEmail(s)
  {
    ValidEmailIffShape(s);
  }

  /** A valid address is never blank, so the "required" check before the
      shape test never fires for it. */
  lemma ValidEmailNotBlank(s: string)
    requires ValidEmail(s)
    ensures !IsBlank(s)
  {
    ValidEmailIffShape(s);
    BlankIffAllWhitespace(s);
    assert !IsWhitespace(s[0]);
  }

  // ---------------------------------------------------------------------------
  // Password requirements
  // ---------------------------------------------------------------------------

  /** `SenhaRequisitos`: the four independent requirement flags. */
  datatype SenhaRequisitos = SenhaRequisitos(minLength: bool, hasUpper: bool, hasLower: bool, hasNumber: bool)

  /** The shortest password the screens accept. */
  const MinPasswordLength: nat := 6

  /** `/[lo-hi]/.test(s)`: a scan for some character in the range. */
  function ContainsInRange(s: string, lo: char, hi: char): (r: bool)
    ensures r <==> exists i :: 0 <= i < |s| && lo <= s[i] <= hi
  {
    if s == [] then false
    else if lo <= s[0] <= hi then true
    else
      var r := ContainsInRange(s[1..], lo, hi);
      assert forall i :: 1 <= i < |s| ==> s[1..][i - 1] == s[i];
      r
  }

  /** `validarSenha(senha)`. */
  function ValidarSenha(senha: string): (r: SenhaRequisitos)
    ensures r.minLength <==> |senha| >= MinPasswordLength
    ensures r.hasUpper <==> exists i :: 0 <= i < |senha| && 'A' <= senha[i] <= 'Z'
    ensures r.hasLower <==> exists i :: 0 <= i < |senha| && 'a' <= senha[i] <= 'z'
    ensures r.hasNumber <==> exists i :: 0 <= i < |senha| && '0' <= senha[i] <= '9'
  {
    SenhaRequisitos(
      |senha| >= MinPasswordLength,
      ContainsInRange(senha, 'A', 'Z'),
      ContainsInRange(senha, 'a', 'z'),
      ContainsInRange(senha, '0', '9'))
  }

  /** `Object.values(requisitos)`, in declaration order. */
  function Values(r: SenhaRequisitos): seq<bool> {
    [r.minLength, r.hasUpper, r.hasLower, r.hasNumber]
  }

  /** `values.every(req => req)`. */
  function Every(bs: seq<bool>): (r: bool)
    ensures r <==> forall i :: 0 <= i < |bs| ==> bs[i]
  {
    if bs == [] then true
    else
      var r := bs[0] && Every(bs[1..]);
      assert forall i :: 1 <= i < |bs| ==> bs[1..][i - 1] == bs[i];
      r
  }

  /** `senhaForte(senha)`: every requirement flag holds. */
  function SenhaForte(senha: string): (r: bool)
    ensures r <==> var q := ValidarSenha(senha); q.minLength && q.hasUpper && q.hasLower && q.hasNumber
    ensures r ==> |senha| >= MinPasswordLength
  {
    var q := ValidarSenha(senha);
    var vs := Values(q);
    assert vs[0] == q.minLength && vs[1] == q.hasUpper && vs[2] == q.hasLower && vs[3] == q.hasNumber;
    Every(vs)
  }

  /** The two sample inputs: "Abc123" meets every requirement, "abc" only
      the lower-case one. */
  lemma RequirementExamples()
    ensures ValidarSenha("Abc123") == SenhaRequisitos(true, true, true, true)
    ensures ValidarSenha("abc") == SenhaRequisitos(false, false, true, false)
    ensures SenhaForte("Abc123") && !SenhaForte("abc")
  {
    var a := "Abc123";
    assert 'A' <= a[0] <= 'Z' && 'a' <= a[1] <= 'z' && '0' <= a[3] <= '9';
    var b := "abc";
    assert 'a' <= b[0] <= 'z';
    assert forall i :: 0 <= i < |b| ==> b[i] == 'a' || b[i] == 'b' || b[i] == 'c';
  }

  /** The registration and reset screens' own `validarSenha(senha)`: only the
      length rule, with its message. */
  datatype LengthVerdict = LengthVerdict(valida: bool, mensagem: string)

  const PasswordTooShort := "A senha deve ter no mínimo 6 caracteres"

  function LengthRule(senha: string): (r: LengthVerdict)
    ensures r.valida <==> ValidarSenha(senha).minLength
    ensures r.valida <==> r.mensagem == ""
  {
    if |senha| < 6 then LengthVerdict(false, PasswordTooShort) else LengthVerdict(true, "")
  }
}

/** The password-strength rule of the product service's validation package. */
module Validation {
  import opened Common

  /** `Param` is `any` in the source: a string for the first two rules, the number 1 for the others. */
  datatype Param = Text(text: string) | Number(number: int)

  datatype ValidationError = ValidationError(field: string, param: Param, code: string, value: string)

  /** The five rules a password must pass. */
  datatype Rule = MinLength | Uppercase | Lowercase | Digit | Special

  /** The rules in the order they are checked. */
  const Rules: seq<Rule> := [MinLength, Uppercase, Lowercase, Digit, Special]

  const MinimumLength: nat := 8
  const UppercaseLetters: string := "ABCDEFGHIJKLMNOPQRSTUVWXYZ"
  const LowercaseLetters: string := "abcdefghijklmnopqrstuvwxyz"
  const Digits: string := "0123456789"
  const SpecialCharacters: string := "!@#$%^&*()_+-=[]{}|;:,.<>?"

  /** Whether the password passes one rule; the length is counted in bytes. */
  predicate Passes(password: string, r: Rule) {
    match r
    case MinLength => Utf8Length(password) >= MinimumLength
    case Uppercase => ContainsAny(password, UppercaseLetters)
    case Lowercase => ContainsAny(password, LowercaseLetters)
    case Digit => ContainsAny(password, Digits)
    case Special => ContainsAny(password, SpecialCharacters)
  }

  predicate Strong(password: string) {
    forall r: Rule :: Passes(password, r)
  }

  /** The position of a rule in `Rules`. */
  function Rank(r: Rule): (k: nat)
    ensures k < |Rules| && Rules[k] == r
  {
    match r
    case MinLength => 0
    case Uppercase => 1
    case Lowercase => 2
    case Digit => 3
    case Special => 4
  }

  /** The error code reported for a rule. */
  function Code(r: Rule): string {
    match r
    case MinLength => "min"
    case Uppercase => "uppercase"
    case Lowercase => "lowercase"
    case Digit => "number"
    case Special => "special"
  }

  /** The error reported when the password breaks rule `r`. */
  function ErrorFor(password: string, r: Rule): (e: ValidationError)
    ensures e.field == "password" && e.code == Code(r)
  {
    match r
    case MinLength => ValidationError("password", Text("min"), "min", "8")
    case Uppercase => ValidationError("password", Text("uppercase"), "uppercase", password)
    case _ => ValidationError("password", Number(1), Code(r), password)
  }

  /** The password's verdict on each rule. */
  function Verdict(password: string): (ok: Rule -> bool)
    ensures forall r :: ok(r) == Passes(password, r)
  {
    r => Passes(password, r)
  }

  /** The error of each rule for this password. */
  function Report(password: string): (report: Rule -> ValidationError)
    ensures forall r :: report(r) == ErrorFor(password, r)
  {
    r => ErrorFor(password, r)
  }

  // ----- Rule lists, for any verdict -----

  /** The rules of `rs` that fail `ok`, in the order of `rs`. */
  function Broken(ok: Rule -> bool, rs: seq<Rule>): (b: seq<Rule>)
    ensures |b| <= |rs|
  {
    if rs == [] then []
    else (if ok(rs[0]) then [] else [rs[0]]) + Broken(ok, rs[1..])
  }

  /** The reports of a list of rules, in the same order. */
  function Reports(report: Rule -> ValidationError, rs: seq<Rule>): (es: seq<ValidationError>)
    ensures |es| == |rs|
  {
    if rs == [] then [] else [report(rs[0])] + Reports(report, rs[1..])
  }

  /** The `i`-th report is the report of the `i`-th rule. */
  lemma {:induction false} ReportsAt(report: Rule -> ValidationError, rs: seq<Rule>)
    ensures forall i :: 0 <= i < |rs| ==> Reports(report, rs)[i] == report(rs[i])
  {
    if rs != [] {
      ReportsAt(report, rs[1..]);
    }
  }

  /** Checking one rule after the errors `acc` found so far. */
  function Step(ok: Rule -> bool, report: Rule -> ValidationError, acc: seq<ValidationError>, r: Rule): seq<ValidationError> {
    if ok(r) then acc else acc + [report(r)]
  }

  /** Checking the rules of `rs` one after another. */
  function Fold(ok: Rule -> bool, report: Rule -> ValidationError, acc: seq<ValidationError>, rs: seq<Rule>): seq<ValidationError>
    decreases |rs|
  {
    if rs == [] then acc else Fold(ok, report, Step(ok, report, acc, rs[0]), rs[1..])
  }

  /** Checking rule by rule reports the broken rules. */
  lemma {:induction false} FoldIsReports(ok: Rule -> bool, report: Rule -> ValidationError, acc: seq<ValidationError>, rs: seq<Rule>)
    ensures Fold(ok, report, acc, rs) == acc + Reports(report, Broken(ok, rs))
    decreases |rs|
  {
    if rs == [] {
      assert acc + [] == acc;
    } else {
      var next := Step(ok, report, acc, rs[0]);
      FoldIsReports(ok, report, next, rs[1..]);
      var tail := Broken(ok, rs[1..]);
      if ok(rs[0]) {
        assert Broken(ok, rs) == tail by { assert [] + tail == tail; }
      } else {
        assert Broken(ok, rs) == [rs[0]] + tail;
        assert Reports(report, [rs[0]] + tail) == [report(rs[0])] + Reports(report, tail) by {
          assert ([rs[0]] + tail)[1..] == tail;
        }
        assert next + Reports(report, tail) == acc + ([report(rs[0])] + Reports(report, tail));
      }
    }
  }

  /** Checking the five rules one after another, with the errors found
      after each of them. */
  lemma FoldRules(ok: Rule -> bool, report: Rule -> ValidationError,
                  a1: seq<ValidationError>, a2: seq<ValidationError>, a3: seq<ValidationError>,
                  a4: seq<ValidationError>, a5: seq<ValidationError>)
    requires a1 == Step(ok, report, [], MinLength)
    requires a2 == Step(ok, report, a1, Uppercase)
    requires a3 == Step(ok, report, a2, Lowercase)
    requires a4 == Step(ok, report, a3, Digit)
    requires a5 == Step(ok, report, a4, Special)
    ensures Fold(ok, report, [], Rules) == a5
  {
    assert Fold(ok, report, a4, [Special]) == a5 by { assert [Special][1..] == []; }
    assert Fold(ok, report, a3, [Digit, Special]) == a5 by { assert [Digit, Special][1..] == [Special]; }
    assert Fold(ok, report, a2, [Lowercase, Digit, Special]) == a5 by {
      assert [Lowercase, Digit, Special][1..] == [Digit, Special];
    }
    assert Fold(ok, report, a1, [Uppercase, Lowercase, Digit, Special]) == a5 by {
      assert [Uppercase, Lowercase, Digit, Special][1..] == [Lowercase, Digit, Special];
    }
    assert Rules[1..] == [Uppercase, Lowercase, Digit, Special];
  }

  /** `Broken` keeps exactly the rules that fail `ok`. */
  lemma {:induction false} BrokenMembers(ok: Rule -> bool, rs: seq<Rule>, r: Rule)
    ensures r in Broken(ok, rs) <==> r in rs && !ok(r)
  {
    if rs != [] {
      BrokenMembers(ok, rs[1..], r);
      assert rs == [rs[0]] + rs[1..];
    }
  }

  /** `Broken` keeps the order of `rs`. */
  lemma {:induction false} BrokenInOrder(ok: Rule -> bool, rs: seq<Rule>)
    requires forall i, j :: 0 <= i < j < |rs| ==> Rank(rs[i]) < Rank(rs[j])
    ensures forall i, j :: 0 <= i < j < |Broken(ok, rs)| ==>
              Rank(Broken(ok, rs)[i]) < Rank(Broken(ok, rs)[j])
  {
    if rs != [] {
      BrokenInOrder(ok, rs[1..]);
      var tail := Broken(ok, rs[1..]);
      forall r | r in tail ensures Rank(rs[0]) < Rank(r) {
        BrokenMembers(ok, rs[1..], r);
        var k :| 0 <= k < |rs[1..]| && rs[1..][k] == r;
        assert rs[k + 1] == r;
      }
    }
  }

  // ----- The password rule -----

  /** The rules the password breaks, in the order they are checked. */
  function BrokenRules(password: string): seq<Rule> {
    Broken(Verdict(password), Rules)
  }

  /** `ValidatePassword`: one error for every rule the password breaks, in
      rule order, each on the field "password"; no error exactly when the
      password passes all five rules. */
  method ValidatePassword(password: string) returns (errs: seq<ValidationError>)
    ensures errs == Reports(Report(password), BrokenRules(password))
    ensures |errs| <= |Rules|
    ensures forall e :: e in errs ==> e.field == "password"
    ensures errs == [] <==> Strong(password)
  {
    ghost var ok, report := Verdict(password), Report(password);
    errs := [];
    ghost var before0 := errs;
    if Utf8Length(password) < MinimumLength {
      errs := errs + [ValidationError("password", Text("min"), "min", "8")];
    }
    assert errs == Step(ok, report, before0, MinLength);
    ghost var before1 := errs;
    if !ContainsAny(password, UppercaseLetters) {
      errs := errs + [ValidationError("password", Text("uppercase"), "uppercase", password)];
    }
    assert errs == Step(ok, report, before1, Uppercase);
    ghost var before2 := errs;
    if !ContainsAny(password, LowercaseLetters) {
      errs := errs + [ValidationError("password", Number(1), "lowercase", password)];
    }
    assert errs == Step(ok, report, before2, Lowercase);
    ghost var before3 := errs;
    if !ContainsAny(password, Digits) {
      errs := errs + [ValidationError("password", Number(1), "number", password)];
    }
    assert errs == Step(ok, report, before3, Digit);
    ghost var before4 := errs;
    if !ContainsAny(password, SpecialCharacters) {
      errs := errs + [ValidationError("password", Number(1), "special", password)];
    }
    assert errs == Step(ok, report, before4, Special);
    FoldRules(ok, report, before1, before2, before3, before4, errs);
    CheckingAllRules(password, errs);
  }

  /** What checking the five rules one after another amounts to. */
  lemma CheckingAllRules(password: string, errs: seq<ValidationError>)
    requires errs == Fold(Verdict(password), Report(password), [], Rules)
    ensures errs == Reports(Report(password), BrokenRules(password))
    ensures |errs| <= |Rules|
    ensures forall e :: e in errs ==> e.field == "password"
    ensures errs == [] <==> Strong(password)
  {
    var es := Reports(Report(password), BrokenRules(password));
    FoldIsReports(Verdict(password), Report(password), [], Rules);
    assert [] + es == es;
    ReportsAt(Report(password), BrokenRules(password));
    StrongIffNothingBroken(password);
  }

  /** The password breaks no rule exactly when it is strong. */
  lemma StrongIffNothingBroken(password: string)
    ensures BrokenRules(password) == [] <==> Strong(password)
  {
    if BrokenRules(password) == [] {
      forall r: Rule ensures Passes(password, r) {
        assert Rules[Rank(r)] == r;
        BrokenMembers(Verdict(password), Rules, r);
      }
    } else {
      BrokenMembers(Verdict(password), Rules, BrokenRules(password)[0]);
    }
  }

  /** The errors come in the fixed order min, uppercase, lowercase, number, special. */
  lemma ErrorsInRuleOrder(password: string)
    ensures forall i, j :: 0 <= i < j < |BrokenRules(password)| ==>
              Rank(BrokenRules(password)[i]) < Rank(BrokenRules(password)[j])
  {
    BrokenInOrder(Verdict(password), Rules);
  }

  /** Rule `r` is reported exactly when the password breaks it. */
  lemma ReportedExactlyWhenBroken(password: string, r: Rule)
    ensures ErrorFor(password, r) in Reports(Report(password), BrokenRules(password)) <==> !Passes(password, r)
  {
    if !Passes(password, r) {
      BrokenRuleReported(password, r);
    } else {
      OnlyBrokenRulesReported(password, r);
    }
  }

  lemma BrokenRuleReported(password: string, r: Rule)
    requires !Passes(password, r)
    ensures ErrorFor(password, r) in Reports(Report(password), BrokenRules(password))
  {
    var b := BrokenRules(password);
    ReportsAt(Report(password), b);
    assert r in Rules by { assert Rules[Rank(r)] == r; }
    BrokenMembers(Verdict(password), Rules, r);
    var i :| 0 <= i < |b| && b[i] == r;
    assert Reports(Report(password), b)[i] == ErrorFor(password, r);
  }

  lemma OnlyBrokenRulesReported(password: string, r: Rule)
    requires Passes(password, r)
    ensures ErrorFor(password, r) !in Reports(Report(password), BrokenRules(password))
  {
    var b := BrokenRules(password);
    var es := Reports(Report(password), b);
    if ErrorFor(password, r) in es {
      ReportsAt(Report(password), b);
      var i :| 0 <= i < |es| && es[i] == ErrorFor(password, r);
      var q := b[i];
      assert Code(q) == Code(r);
      CodeInjective(q, r);
      BrokenMembers(Verdict(password), Rules, q);
    }
  }

  /** Different rules have different error codes. */
  lemma CodeInjective(q: Rule, r: Rule)
    requires Code(q) == Code(r)
    ensures q == r
  {
  }
}

/** Job parameters from the web form, through the database, to the message for the runner. */
module Parameters {
  import opened Common

  type Pair = (string, string)

  // ----- The form -----

  function Digit(d: nat): char
    requires d < 10
  {
    '0' + d as char
  }

  function Decimal(n: nat): string {
    if n < 10 then [Digit(n)] else Decimal(n / 10) + [Digit(n % 10)]
  }

  function KeyName(idx: nat): string {
    "parameter_" + Decimal(idx) + "_key"
  }

  function ValueName(idx: nat): string {
    "parameter_" + Decimal(idx) + "_value"
  }

  lemma {:induction false} DecimalInjective(i: nat, j: nat)
    requires Decimal(i) == Decimal(j)
    ensures i == j
  {
    if i >= 10 && j >= 10 {
      var a, b := Decimal(i / 10), Decimal(j / 10);
      assert (a + [Digit(i % 10)])[..|a|] == a && (b + [Digit(j % 10)])[..|b|] == b;
      assert |a| == |b| && Decimal(i)[|a|] == Decimal(j)[|b|];
      DecimalInjective(i / 10, j / 10);
    } else {
      assert Decimal(i)[|Decimal(i)| - 1] == Decimal(j)[|Decimal(j)| - 1];
      DecimalLength(i);
      DecimalLength(j);
    }
  }

  lemma DecimalLength(n: nat)
    ensures |Decimal(n)| == 1 <==> n < 10
    ensures |Decimal(n)| >= 1
  {}

  lemma Infix(prefix: string, a: string, b: string, suffix: string)
    requires prefix + a + suffix == prefix + b + suffix
    ensures a == b
  {
    assert (prefix + a + suffix)[|prefix|..|prefix| + |a|] == a;
    assert (prefix + b + suffix)[|prefix|..|prefix| + |b|] == b;
    assert |a| == |b|;
  }

  lemma NamesInjective(i: nat, j: nat)
    ensures KeyName(i) == KeyName(j) || ValueName(i) == ValueName(j) ==> i == j
    ensures KeyName(i) != ValueName(j)
  {
    if KeyName(i) == KeyName(j) { Infix("parameter_", Decimal(i), Decimal(j), "_key"); DecimalInjective(i, j); }
    if ValueName(i) == ValueName(j) { Infix("parameter_", Decimal(i), Decimal(j), "_value"); DecimalInjective(i, j); }
    assert KeyName(i)[|KeyName(i)| - 1] == 'y' && ValueName(j)[|ValueName(j)| - 1] == 'e';
  }

  predicate IsDigit(c: char) {
    '0' <= c <= '9'
  }

  // The number a string of digits reads as.
  function Reads(s: string): int {
    if s == "" then 0 else 10 * Reads(s[..|s| - 1]) + (s[|s| - 1] as int - '0' as int)
  }

  // Its decimal digits, without leading zeros.
  ghost predicate IsDecimal(s: string, n: nat) {
    s != "" && (forall k | 0 <= k < |s| :: IsDigit(s[k])) && (|s| > 1 ==> s[0] != '0') && Reads(s) == n
  }

  lemma {:induction false} DecimalReads(n: nat)
    ensures IsDecimal(Decimal(n), n)
    ensures n > 0 ==> Decimal(n)[0] != '0'
  {
    if n >= 10 {
      var front := Decimal(n / 10);
      DecimalReads(n / 10);
      assert Decimal(n)[..|front|] == front;
      assert Decimal(n)[0] == front[0];
    } else {
      assert Decimal(n)[..0] == "";
    }
  }

  /** The fields are named `parameter_N_key` and `parameter_N_value`, N in decimal digits. */
  lemma NamesAreDecimal(i: nat) returns (digits: string)
    ensures IsDecimal(digits, i)
    ensures KeyName(i) == "parameter_" + digits + "_key" && ValueName(i) == "parameter_" + digits + "_value"
  {
    digits := Decimal(i);
    DecimalReads(i);
  }

  // The key fields below `idx`.
  ghost function NamesBelow(idx: nat): set<string> {
    set i | 0 <= i < idx :: KeyName(i)
  }

  lemma FewerLeft(form: map<string, string>, idx: nat)
    requires KeyName(idx) in form
    ensures |form.Keys - NamesBelow(idx + 1)| < |form.Keys - NamesBelow(idx)|
  {
    var a, b := form.Keys - NamesBelow(idx + 1), form.Keys - NamesBelow(idx);
    forall i | 0 <= i < idx ensures KeyName(i) != KeyName(idx) { NamesInjective(i, idx); }
    assert KeyName(idx) in b && KeyName(idx) !in a;
    assert a <= b - {KeyName(idx)};
    CardMonotone(a, b - {KeyName(idx)});
  }

  // The walk ends on every form: each turn uses up a key field.
  function FormToList(form: map<string, string>, idx: nat): seq<Pair>
    decreases |form.Keys - NamesBelow(idx)|
  {
    if KeyName(idx) !in form || ValueName(idx) !in form then []
    else
      FewerLeft(form, idx);
      [(form[KeyName(idx)], form[ValueName(idx)])] + FormToList(form, idx + 1)
  }

  ghost predicate FieldsAt(form: map<string, string>, idx: nat, pair: Pair) {
    KeyName(idx) in form && ValueName(idx) in form && pair == (form[KeyName(idx)], form[ValueName(idx)])
  }

  // It collects the pairs up to the first index that lacks a field.
  lemma {:induction false} FormToListExactly(form: map<string, string>, idx: nat)
    ensures KeyName(idx + |FormToList(form, idx)|) !in form || ValueName(idx + |FormToList(form, idx)|) !in form
    ensures forall i | 0 <= i < |FormToList(form, idx)| :: FieldsAt(form, idx + i, FormToList(form, idx)[i])
    decreases |form.Keys - NamesBelow(idx)|
  {
    if KeyName(idx) in form && ValueName(idx) in form {
      FewerLeft(form, idx);
      FormToListExactly(form, idx + 1);
      var r, rest := FormToList(form, idx), FormToList(form, idx + 1);
      assert r == [(form[KeyName(idx)], form[ValueName(idx)])] + rest;
      forall i | 0 <= i < |r| ensures FieldsAt(form, idx + i, r[i]) {
        if i > 0 { assert FieldsAt(form, idx + 1 + (i - 1), rest[i - 1]); }
      }
    }
  }

  lemma {:induction false} FormToListStops(form: map<string, string>, idx: nat, n: nat)
    requires KeyName(idx + n) !in form || ValueName(idx + n) !in form
    ensures |FormToList(form, idx)| <= n
    decreases n
  {
    if n > 0 { FormToListStops(form, idx + 1, n - 1); }
  }

  // The fields the page shows for a list of pairs, beside its other fields.
  function Render(other: map<string, string>, pairs: seq<Pair>): map<string, string> {
    if pairs == [] then other
    else
      var n := |pairs| - 1;
      Render(other, pairs[..n])[KeyName(n) := pairs[n].0][ValueName(n) := pairs[n].1]
  }

  lemma {:induction false} RenderShows(other: map<string, string>, pairs: seq<Pair>, i: nat)
    ensures i < |pairs| ==> KeyName(i) in Render(other, pairs) && Render(other, pairs)[KeyName(i)] == pairs[i].0
    ensures i < |pairs| ==> ValueName(i) in Render(other, pairs) && Render(other, pairs)[ValueName(i)] == pairs[i].1
    ensures i >= |pairs| ==> (KeyName(i) in Render(other, pairs) <==> KeyName(i) in other)
    ensures i >= |pairs| ==> (ValueName(i) in Render(other, pairs) <==> ValueName(i) in other)
  {
    if pairs != [] {
      var n := |pairs| - 1;
      RenderShows(other, pairs[..n], i);
      NamesInjective(i, n);
      NamesInjective(n, i);
      NamesInjective(n, n);
    }
  }

  // What the page shows is what the next event collects.
  lemma FormRoundTrip(other: map<string, string>, pairs: seq<Pair>)
    requires KeyName(|pairs|) !in other || ValueName(|pairs|) !in other
    ensures FormToList(Render(other, pairs), 0) == pairs
  {
    var form := Render(other, pairs);
    var r := FormToList(form, 0);
    FormToListExactly(form, 0);
    RenderShows(other, pairs, |pairs|);
    FormToListStops(form, 0, |pairs|);
    if |r| < |pairs| {
      RenderShows(other, pairs, |r|);
      assert false;
    }
    forall i | 0 <= i < |pairs| ensures r[i] == pairs[i] {
      RenderShows(other, pairs, i);
      assert FieldsAt(form, 0 + i, r[i]);
    }
  }

  // ----- Validation -----

  datatype Problem = ValueWithoutKey(value: string) | DuplicateKey(key: string)
  datatype Outcome = Valid(params: map<string, string>) | Invalid(problem: Problem)

  function Validate(pairs: seq<Pair>, validated: map<string, string>): Outcome {
    if pairs == [] then Valid(validated)
    else
      var (key, value) := pairs[0];
      if key == "" && value == "" then Validate(pairs[1..], validated)
      else if key == "" then Invalid(ValueWithoutKey(value))
      else if key in validated then Invalid(DuplicateKey(key))
      else Validate(pairs[1..], validated[key := value])
  }

  // One of the first k pairs has this key, which is not blank.
  ghost predicate HasKey(pairs: seq<Pair>, k: nat, key: string)
    requires k <= |pairs|
  {
    key != "" && exists j :: 0 <= j < k && pairs[j].0 == key
  }

  ghost predicate Repeats(pairs: seq<Pair>, i: nat)
    requires i < |pairs|
  {
    HasKey(pairs, i, pairs[i].0)
  }

  ghost predicate Offends(pairs: seq<Pair>, i: nat)
    requires i < |pairs|
  {
    (pairs[i].0 == "" && pairs[i].1 != "") || Repeats(pairs, i)
  }

  // Validation after the first k pairs, none of which offends, have been put into the map.
  lemma {:induction false} ValidateFrom(pairs: seq<Pair>, k: nat, validated: map<string, string>)
    requires k <= |pairs| && forall i: nat | i < k :: !Offends(pairs, i)
    requires forall i | 0 <= i < k && pairs[i].0 != "" :: pairs[i].0 in validated && validated[pairs[i].0] == pairs[i].1
    requires forall key | key in validated :: HasKey(pairs, k, key)
    ensures match Validate(pairs[k..], validated)
      case Valid(m) =>
        && (forall i: nat | i < |pairs| :: !Offends(pairs, i))
        && (forall i | 0 <= i < |pairs| && pairs[i].0 != "" :: pairs[i].0 in m && m[pairs[i].0] == pairs[i].1)
        && (forall key | key in m :: HasKey(pairs, |pairs|, key))
      case Invalid(p) => Rejected(pairs, p)
    decreases |pairs| - k
  {
    if k < |pairs| {
      var (key, value) := pairs[k];
      var left := pairs[k..];
      assert left[0] == pairs[k] && left[1..] == pairs[k + 1..];
      assert key != "" ==> (key in validated <==> Repeats(pairs, k));
      if key == "" && value != "" {
        assert IsFirstProblem(pairs, k, ValueWithoutKey(value));
      } else if key != "" && key in validated {
        assert IsFirstProblem(pairs, k, DuplicateKey(key));
      } else {
        var next := if key == "" then validated else validated[key := value];
        ValidateFrom(pairs, k + 1, next);
        assert Validate(pairs[k..], validated) == Validate(pairs[k + 1..], next);
      }
    }
  }

  ghost predicate Rejected(pairs: seq<Pair>, p: Problem) {
    exists i: nat :: IsFirstProblem(pairs, i, p)
  }

  ghost predicate IsFirstProblem(pairs: seq<Pair>, i: nat, p: Problem) {
    && i < |pairs| && Offends(pairs, i) && (forall j: nat | j < i :: !Offends(pairs, j))
    && p == if pairs[i].0 == "" then ValueWithoutKey(pairs[i].1) else DuplicateKey(pairs[i].0)
  }

  // Valid exactly when no pair has a value without a key and no key repeats; then the map is the pairs
  // that have a key. Otherwise the error is that of the first offending pair.
  lemma ValidateExactly(pairs: seq<Pair>)
    ensures Validate(pairs, map[]).Valid? <==> forall i: nat | i < |pairs| :: !Offends(pairs, i)
    ensures Validate(pairs, map[]).Valid? ==> forall key: string, value: string ::
      (key in Validate(pairs, map[]).params && Validate(pairs, map[]).params[key] == value) <==>
        key != "" && (key, value) in pairs
    ensures forall p :: Validate(pairs, map[]) == Invalid(p) <==> Rejected(pairs, p)
  {
    ValidateFrom(pairs, 0, map[]);
    assert pairs[0..] == pairs;
    var r := Validate(pairs, map[]);
    if r.Valid? {
      forall key: string, value: string
        ensures (key in r.params && r.params[key] == value) <==> key != "" && (key, value) in pairs
      {
        if key in r.params {
          assert HasKey(pairs, |pairs|, key);
          var i :| 0 <= i < |pairs| && key != "" && pairs[i].0 == key;
          assert r.params[key] == pairs[i].1;
          assert pairs[i] in pairs;
        }
      }
    } else {
      assert Rejected(pairs, r.problem);
      forall p, i: nat | IsFirstProblem(pairs, i, p) ensures r == Invalid(p) {
        var k: nat :| IsFirstProblem(pairs, k, r.problem);
        assert k == i;
      }
    }
  }

  // ----- Database rows, and the map sent to the runner -----

  datatype Parameter = Parameter(key: string, value: string, secret: bool)
  datatype Sent = Sent(value: string, secret: bool)

  // The rows that instant_job inserts, as the database later returns them, in whatever order.
  ghost predicate RowsOf(rows: seq<Parameter>, params: map<string, string>) {
    && (forall i, k | 0 <= i < k < |rows| :: rows[i].key != rows[k].key)
    && (forall i | 0 <= i < |rows| ::
      rows[i].key in params && rows[i] == Parameter(rows[i].key, params[rows[i].key], false))
    && (forall key | key in params :: exists i :: 0 <= i < |rows| && rows[i].key == key)
  }

  // Entries enter the map in order, so the last one of a key stands.
  function TransformParams(rows: seq<Parameter>): map<string, Sent> {
    if rows == [] then map[]
    else
      var last := rows[|rows| - 1];
      TransformParams(rows[..|rows| - 1])[last.key := Sent(last.value, last.secret)]
  }

  lemma {:induction false} LastRowStands(rows: seq<Parameter>, key: string)
    ensures key in TransformParams(rows) <==> exists i :: 0 <= i < |rows| && rows[i].key == key
    ensures key in TransformParams(rows) ==>
      exists i: nat :: IsLast(rows, i, key) && TransformParams(rows)[key] == Sent(rows[i].value, rows[i].secret)
  {
    if rows != [] {
      var n := |rows| - 1;
      LastRowStands(rows[..n], key);
      if rows[n].key == key {
        assert IsLast(rows, n, key);
      } else if key in TransformParams(rows) {
        var i: nat :| IsLast(rows[..n], i, key)
          && TransformParams(rows[..n])[key] == Sent(rows[i].value, rows[i].secret);
        assert IsLast(rows, i, key);
      }
    }
  }

  ghost predicate IsLast(rows: seq<Parameter>, i: nat, key: string) {
    i < |rows| && rows[i].key == key && forall k | i < k < |rows| :: rows[k].key != key
  }

  // What reaches the runner is the validated map, nothing of it secret.
  lemma SentIsValidated(rows: seq<Parameter>, params: map<string, string>)
    requires RowsOf(rows, params)
    ensures TransformParams(rows) == map key | key in params :: Sent(params[key], false)
  {
    forall key: string
      ensures key in TransformParams(rows) <==> key in params
      ensures key in params ==> TransformParams(rows)[key] == Sent(params[key], false)
    {
      LastRowStands(rows, key);
    }
  }

  // From the page to the runner: every pair with a key arrives, and nothing else.
  lemma ParametersRoundTrip(other: map<string, string>, pairs: seq<Pair>, rows: seq<Parameter>)
    requires KeyName(|pairs|) !in other || ValueName(|pairs|) !in other
    requires Validate(FormToList(Render(other, pairs), 0), map[]).Valid?
    requires RowsOf(rows, Validate(FormToList(Render(other, pairs), 0), map[]).params)
    ensures forall key: string, sent: Sent ::
      (key in TransformParams(rows) && TransformParams(rows)[key] == sent) <==>
        key != "" && !sent.secret && (key, sent.value) in pairs
  {
    FormRoundTrip(other, pairs);
    ValidateExactly(pairs);
    SentIsValidated(rows, Validate(pairs, map[]).params);
  }
}

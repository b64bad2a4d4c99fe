/** Record matching by colon tokens, subject tuples, and conditional
    dampening of a label-to-weight table. */
module Helpers {
  import opened Wrappers
  import opened Text
  import opened Context

  // -----------------------------------------------------------------------
  // match / match_array

  /** True when some string of `fs` also occurs in `rs`. */
  function AnyShared(fs: seq<string>, rs: seq<string>): bool {
    if fs == [] then false
    else fs[0] in rs || AnyShared(fs[1..], rs)
  }

  lemma {:induction false} AnySharedMeans(fs: seq<string>, rs: seq<string>)
    ensures AnyShared(fs, rs) <==> exists i :: 0 <= i < |fs| && fs[i] in rs
  {
    if fs != [] {
      AnySharedMeans(fs[1..], rs);
      assert forall i :: 1 <= i < |fs| ==> fs[i] == fs[1..][i - 1];
    }
  }

  /** `match(rec, fmt)`: some `:`-token of the template is also a
      `:`-token of the record. */
  function Match(rec: string, fmt: string): bool {
    AnyShared(Split(fmt, ":"), Split(rec, ":"))
  }

  lemma MatchMeans(rec: string, fmt: string)
    ensures Match(rec, fmt) <==> exists t :: t in Split(fmt, ":") && t in Split(rec, ":")
  {
    AnySharedMeans(Split(fmt, ":"), Split(rec, ":"));
  }

  /** `match_array(rec, xs)`: the record matches one of the templates. */
  function MatchArray(rec: string, xs: seq<string>): (r: bool)
    ensures r <==> exists i :: 0 <= i < |xs| && Match(rec, xs[i])
    ensures xs == [] ==> !r
  {
    if xs == [] then false
    else if Match(rec, xs[0]) then true
    else
      var r' := MatchArray(rec, xs[1..]);
      assert forall i :: 1 <= i < |xs| ==> xs[i] == xs[1..][i - 1];
      r'
  }

  /** A colon-free head, token and tail split into exactly three tokens. */
  lemma ThreeTokens(a: string, t: string, b: string)
    requires NoChar(a, ':') && NoChar(t, ':') && NoChar(b, ':')
    ensures Split(a + ":" + t + ":" + b, ":") == [a, t, b]
  {
    assert a + ":" + t + ":" + b == a + ":" + (t + ":" + b);
    SplitJoin(a, ":", t + ":" + b);
    SplitJoin(t, ":", b);
    SplitNone(b, ":");
  }

  /** A record `a:t:b` matches the template `{}:t:{}` through its middle
      token; for example `1:move:2` matches the move template. */
  lemma {:induction false} RecordMatchesOwnTemplate(a: string, t: string, b: string)
    requires NoChar(a, ':') && NoChar(t, ':') && NoChar(b, ':')
    ensures Match(a + ":" + t + ":" + b, "{}:" + t + ":{}")
  {
    ThreeTokens(a, t, b);
    assert "{}:" + t + ":{}" == "{}" + ":" + t + ":" + "{}";
    ThreeTokens("{}", t, "{}");
    assert t in Split("{}:" + t + ":{}", ":");
    MatchMeans(a + ":" + t + ":" + b, "{}:" + t + ":{}");
  }

  /** The record `a:t:b` matches the template `{}:u:{}` exactly when the
      middle tokens agree or the record shows a literal `{}` token. */
  lemma {:induction false} RecordMatchesTemplate(a: string, t: string, b: string, u: string)
    requires NoChar(a, ':') && NoChar(t, ':') && NoChar(b, ':') && NoChar(u, ':')
    ensures Match(a + ":" + t + ":" + b, "{}:" + u + ":{}") <==>
            (t == u || a == "{}" || b == "{}" || u == a || u == b || t == "{}")
  {
    ThreeTokens(a, t, b);
    assert "{}:" + u + ":{}" == "{}" + ":" + u + ":" + "{}";
    ThreeTokens("{}", u, "{}");
    var fs := Split("{}:" + u + ":{}", ":");
    var rs := Split(a + ":" + t + ":" + b, ":");
    assert fs == ["{}", u, "{}"] && rs == [a, t, b];
    assert ("{}" in rs || u in rs) <==> (t == u || a == "{}" || b == "{}" || u == a || u == b || t == "{}");
    if "{}" in rs { assert "{}" in fs; }
    if u in rs { assert u in fs; }
    MatchMeans(a + ":" + t + ":" + b, "{}:" + u + ":{}");
  }

  // -----------------------------------------------------------------------
  // build_subjects

  /** `build_subjects(action, *subjects)`: a tuple whose field names are the
      action's subject list. An unknown action raises in `index`; a count
      that differs from the field list is printed and the tuple
      construction then raises. */
  function BuildSubjects<T>(action: string, subjects: seq<T>): (r: Result<seq<(string, T)>>)
    ensures r.Success? <==>
      exists a: ActionKind :: Actions[Index(a)] == action && |subjects| == Arity(a)
    ensures r.Success? ==>
      exists a: ActionKind :: Actions[Index(a)] == action &&
        |r.value| == |subjects| &&
        forall i :: 0 <= i < |subjects| ==> r.value[i] == (SubjectFields(a)[i], subjects[i])
  {
    match KindNamed(action)
    case None => Failure("ValueError: not an action")
    case Some(a) =>
      var fields := SubjectFields(a);
      if |fields| != |subjects| then Failure("TypeError: wrong number of subjects")
      else Success(seq(|subjects|, i requires 0 <= i < |subjects| => (fields[i], subjects[i])))
  }

  /** `actions.index(name)` read back as an action kind. */
  function KindNamed(name: string): (r: Option<ActionKind>)
    ensures r.Some? ==> Actions[Index(r.value)] == name
    ensures r.None? ==> forall a: ActionKind :: Actions[Index(a)] != name
  {
    if name == "start" then Some(Start)
    else if name == "pitch" then Some(Pitch)
    else if name == "throw" then Some(Throw)
    else if name == "catch" then Some(Catch)
    else if name == "move" then Some(Move)
    else if name == "tag" then Some(Tag)
    else if name == "shift" then Some(Shift)
    else None
  }

  // -----------------------------------------------------------------------
  // cond_dampen over a label-to-weight table in insertion order

  type Table = seq<(string, real)>

  function Labels(q: Table): (ls: seq<string>)
    ensures |ls| == |q| && forall i :: 0 <= i < |q| ==> ls[i] == q[i].0
  {
    if q == [] then [] else [q[0].0] + Labels(q[1..])
  }

  predicate Distinct(s: seq<string>) {
    forall i, j :: 0 <= i < j < |s| ==> s[i] != s[j]
  }

  /** A dictionary: no label twice. */
  predicate IsTable(q: Table) { Distinct(Labels(q)) }

  /** `q[lab]`, or 0 for a label the table lacks. */
  function Get(q: Table, lab: string): real {
    if q == [] then 0.0 else if q[0].0 == lab then q[0].1 else Get(q[1..], lab)
  }

  /** `q[lab] = v` for a label the table holds. */
  function Put(q: Table, lab: string, v: real): (r: Table)
    ensures Labels(r) == Labels(q)
  {
    if q == [] then []
    else if q[0].0 == lab then [(lab, v)] + q[1..]
    else [q[0]] + Put(q[1..], lab, v)
  }

  function Total(q: Table): real {
    if q == [] then 0.0 else q[0].1 + Total(q[1..])
  }

  /** The first loop: each listed label, in order, adds its current weight
      to the running mass and is set to `cond`. */
  function Absorb(q: Table, sub: seq<string>, cond: real): (Table, real)
    decreases |sub|
  {
    if sub == [] then (q, 0.0)
    else
      var prev := Absorb(q, sub[..|sub| - 1], cond);
      var e := sub[|sub| - 1];
      (Put(prev.0, e, cond), prev.1 + Get(prev.0, e))
  }

  /** The second loop: every label not listed gains `norm`. */
  function Spread(q: Table, sub: seq<string>, norm: real): (r: Table)
    ensures |r| == |q|
  {
    seq(|q|, i requires 0 <= i < |q| =>
      if q[i].0 in sub then q[i] else (q[i].0, q[i].1 + norm))
  }

  /** `cond_dampen(probs, sub, cond)`. Outside `0 <= cond <= 1` the table
      comes back unchanged; inside, a listed label missing from the table
      or more listed labels than entries fail the assertions, and as many
      listed labels as entries divides by zero. */
  function DampenSpec(probs: Table, sub: seq<string>, cond: real): (r: Result<Table>)
    ensures r.Success? <==>
      (!(0.0 <= cond <= 1.0) ||
       ((forall e :: e in sub ==> e in Labels(probs)) && |sub| < |probs|))
    ensures !(0.0 <= cond <= 1.0) ==> r == Success(probs)
  {
    if !(0.0 <= cond <= 1.0) then Success(probs)
    else if exists e :: e in sub && e !in Labels(probs) then Failure("AssertionError: unknown label")
    else if |probs| < |sub| then Failure("AssertionError: too many labels")
    else if |probs| == |sub| then Failure("ZeroDivisionError")
    else
      var (q, s) := Absorb(probs, sub, cond);
      Success(Spread(q, sub, s / ((|probs| - |sub|) as real)))
  }

  /** The imperative `cond_dampen`: copy, absorb the listed labels one by
      one, then spread the absorbed mass over the others. */
  method CondDampen(probs: Table, sub: seq<string>, cond: real) returns (r: Result<Table>)
    ensures r == DampenSpec(probs, sub, cond)
  {
    if !(0.0 <= cond <= 1.0) {
      return Success(probs);
    }
    if exists e :: e in sub && e !in Labels(probs) {
      return Failure("AssertionError: unknown label");
    }
    if |probs| < |sub| {
      return Failure("AssertionError: too many labels");
    }
    var q, scalar := AbsorbListed(probs, sub, cond);
    if |probs| == |sub| {
      return Failure("ZeroDivisionError");
    }
    var out := SpreadUnlisted(q, sub, scalar / ((|probs| - |sub|) as real));
    r := Success(out);
  }

  /** The first loop of `cond_dampen`, on the copy. */
  method AbsorbListed(probs: Table, sub: seq<string>, cond: real) returns (q: Table, scalar: real)
    ensures (q, scalar) == Absorb(probs, sub, cond)
  {
    q := probs;
    scalar := 0.0;
    var i := 0;
    while i < |sub|
      invariant 0 <= i <= |sub|
      invariant (q, scalar) == Absorb(probs, sub[..i], cond)
    {
      assert sub[..i + 1][..i] == sub[..i];
      scalar := scalar + Get(q, sub[i]);
      q := Put(q, sub[i], cond);
      i := i + 1;
    }
    assert sub[..i] == sub;
  }

  /** The second loop of `cond_dampen`. */
  method SpreadUnlisted(q: Table, sub: seq<string>, norm: real) returns (out: Table)
    ensures out == Spread(q, sub, norm)
  {
    out := [];
    var j := 0;
    while j < |q|
      invariant 0 <= j <= |q|
      invariant out == Spread(q, sub, norm)[..j]
    {
      var entry := if q[j].0 in sub then q[j] else (q[j].0, q[j].1 + norm);
      out := out + [entry];
      j := j + 1;
    }
  }

  // Properties of the table operations

  lemma {:induction false} GetPut(q: Table, a: string, v: real, b: string)
    requires a in Labels(q)
    ensures Get(Put(q, a, v), b) == if a == b then v else Get(q, b)
  {
    if q[0].0 != a {
      assert Labels(q[1..]) == Labels(q)[1..];
      GetPut(q[1..], a, v, b);
    } else if a != b {
      assert Put(q, a, v)[1..] == q[1..];
    }
  }

  lemma {:induction false} TotalPut(q: Table, a: string, v: real)
    requires a in Labels(q)
    ensures Total(Put(q, a, v)) == Total(q) - Get(q, a) + v
  {
    assert Labels(q[1..]) == Labels(q)[1..];
    if q[0].0 != a {
      TotalPut(q[1..], a, v);
    } else {
      assert Put(q, a, v)[1..] == q[1..];
    }
  }

  /** The first loop keeps the labels. */
  lemma {:induction false} AbsorbLabels(probs: Table, sub: seq<string>, cond: real)
    ensures Labels(Absorb(probs, sub, cond).0) == Labels(probs)
    decreases |sub|
  {
    if sub != [] {
      AbsorbLabels(probs, sub[..|sub| - 1], cond);
    }
  }

  /** After the first loop every listed label weighs `cond` and every
      other label keeps its weight. */
  lemma {:induction false} AbsorbGet(probs: Table, sub: seq<string>, cond: real, b: string)
    requires forall e :: e in sub ==> e in Labels(probs)
    ensures Get(Absorb(probs, sub, cond).0, b) == if b in sub then cond else Get(probs, b)
    decreases |sub|
  {
    if sub != [] {
      var init := sub[..|sub| - 1];
      var e := sub[|sub| - 1];
      var q1 := Absorb(probs, init, cond).0;
      assert sub == init + [e];
      assert forall x :: x in init ==> x in sub;
      AbsorbGet(probs, init, cond, b);
      AbsorbLabels(probs, init, cond);
      assert e in Labels(q1);
      GetPut(q1, e, cond, b);
      assert Absorb(probs, sub, cond).0 == Put(q1, e, cond);
    }
  }

  /** With distinct listed labels the running mass is their old weights. */
  lemma {:induction false} AbsorbSum(probs: Table, sub: seq<string>, cond: real)
    requires Distinct(sub) && forall e :: e in sub ==> e in Labels(probs)
    ensures Absorb(probs, sub, cond).1 == SumOf(probs, sub)
    decreases |sub|
  {
    if sub != [] {
      var init := sub[..|sub| - 1];
      var e := sub[|sub| - 1];
      assert sub == init + [e];
      assert forall x :: x in init ==> x in sub;
      assert e !in init;
      AbsorbSum(probs, init, cond);
      AbsorbGet(probs, init, cond, e);
    }
  }

  /** With distinct listed labels the total moves by `|sub| * cond` minus
      the listed labels' old weights. */
  lemma {:induction false} AbsorbTotal(probs: Table, sub: seq<string>, cond: real)
    requires Distinct(sub) && forall e :: e in sub ==> e in Labels(probs)
    ensures Total(Absorb(probs, sub, cond).0) ==
            Total(probs) - SumOf(probs, sub) + Scaled(|sub|, cond)
    decreases |sub|
  {
    if sub != [] {
      var init := sub[..|sub| - 1];
      var e := sub[|sub| - 1];
      var q1 := Absorb(probs, init, cond).0;
      assert sub == init + [e];
      assert forall x :: x in init ==> x in sub;
      assert e !in init;
      AbsorbTotal(probs, init, cond);
      AbsorbGet(probs, init, cond, e);
      AbsorbLabels(probs, init, cond);
      TotalPut(q1, e, cond);
      assert Absorb(probs, sub, cond).0 == Put(q1, e, cond);
      assert SumOf(probs, sub) == SumOf(probs, init) + Get(probs, e);
      MassStep(Total(probs), Total(q1), Total(Put(q1, e, cond)), SumOf(probs, init),
               Get(probs, e), |init|, cond);
    }
  }

  lemma MassStep(t: real, t1: real, t2: real, s1: real, g: real, n: nat, c: real)
    requires t1 == t - s1 + Scaled(n, c)
    requires t2 == t1 - g + c
    ensures t2 == t - (s1 + g) + Scaled(n + 1, c)
  {
  }

  /** `n` copies of `c` added up. */
  function Scaled(n: nat, c: real): real {
    if n == 0 then 0.0 else Scaled(n - 1, c) + c
  }

  lemma {:induction false} ScaledIsProduct(n: nat, c: real)
    ensures Scaled(n, c) == (n as real) * c
  {
    if n > 0 {
      ScaledIsProduct(n - 1, c);
      assert (n as real) * c == ((n - 1) as real) * c + c;
    }
  }

  /** The listed labels' weights summed, listed order. */
  function SumOf(q: Table, sub: seq<string>): real
    decreases |sub|
  {
    if sub == [] then 0.0 else SumOf(q, sub[..|sub| - 1]) + Get(q, sub[|sub| - 1])
  }

  function Unlisted(q: Table, sub: seq<string>): nat {
    if q == [] then 0 else (if q[0].0 in sub then 0 else 1) + Unlisted(q[1..], sub)
  }

  lemma {:induction false} TotalSpread(q: Table, sub: seq<string>, norm: real)
    ensures Total(Spread(q, sub, norm)) == Total(q) + Scaled(Unlisted(q, sub), norm)
  {
    if q != [] {
      TotalSpread(q[1..], sub, norm);
      assert Spread(q, sub, norm)[1..] == Spread(q[1..], sub, norm);
    }
  }

  lemma {:induction false} UnlistedCount(q: Table, sub: seq<string>)
    requires IsTable(q) && Distinct(sub) && forall e :: e in sub ==> e in Labels(q)
    ensures Unlisted(q, sub) == |q| - |sub|
  {
    var first := if |sub| > 0 then sub[0] else "";
    assert |sub| > 0 ==> first in sub;
    if q != [] {
      var l := q[0].0;
      assert Labels(q) == [l] + Labels(q[1..]);
      assert l !in Labels(q[1..]);
      if l in sub {
        var k :| 0 <= k < |sub| && sub[k] == l;
        var rest := sub[..k] + sub[k + 1..];
        RemoveAt(sub, k);
        forall e | e in rest ensures e in Labels(q[1..]) {
          assert e in [l] + Labels(q[1..]) && e != l;
        }
        UnlistedCount(q[1..], rest);
        UnlistedSame(q[1..], sub, rest, l);
      } else {
        forall e | e in sub ensures e in Labels(q[1..]) {
          assert e in [l] + Labels(q[1..]) && e != l;
        }
        UnlistedCount(q[1..], sub);
      }
    }
  }

  /** Dropping entry k of a list without repeats leaves exactly the other
      entries, still without repeats. */
  lemma RemoveAt(sub: seq<string>, k: nat)
    requires Distinct(sub) && k < |sub|
    ensures forall e :: e in sub[..k] + sub[k + 1..] <==> e in sub && e != sub[k]
    ensures Distinct(sub[..k] + sub[k + 1..])
  {
    var rest := sub[..k] + sub[k + 1..];
    forall e ensures e in rest <==> e in sub && e != sub[k] {
      if e in rest {
        var i :| 0 <= i < |rest| && rest[i] == e;
        if i < k { assert sub[i] == e; } else { assert sub[i + 1] == e; }
      }
      if e in sub && e != sub[k] {
        var i :| 0 <= i < |sub| && sub[i] == e;
        if i < k { assert rest[i] == e; } else { assert rest[i - 1] == e; }
      }
    }
    forall i, j | 0 <= i < j < |rest| ensures rest[i] != rest[j] {
      var i' := if i < k then i else i + 1;
      var j' := if j < k then j else j + 1;
      assert rest[i] == sub[i'] && rest[j] == sub[j'];
    }
  }

  lemma {:induction false} UnlistedSame(q: Table, sub: seq<string>, rest: seq<string>, l: string)
    requires l !in Labels(q)
    requires forall e :: e in rest <==> e in sub && e != l
    ensures Unlisted(q, sub) == Unlisted(q, rest)
  {
    if q != [] {
      assert Labels(q[1..]) == Labels(q)[1..];
      UnlistedSame(q[1..], sub, rest, l);
    }
  }

  /** Dampening a table: the labels stay in order, every listed label
      weighs `cond`, and every other label gains the same share `norm` of
      the removed mass. */
  lemma DampenValues(probs: Table, sub: seq<string>, cond: real)
    requires IsTable(probs) && Distinct(sub)
    requires DampenSpec(probs, sub, cond).Success? && 0.0 <= cond <= 1.0
    ensures var r := DampenSpec(probs, sub, cond).value;
      var norm := SumOf(probs, sub) / ((|probs| - |sub|) as real);
      Labels(r) == Labels(probs) &&
      forall i :: 0 <= i < |r| ==>
        r[i].1 == if probs[i].0 in sub then cond else probs[i].1 + norm
  {
    AbsorbSum(probs, sub, cond);
    AbsorbLabels(probs, sub, cond);
    var q := Absorb(probs, sub, cond).0;
    var norm := SumOf(probs, sub) / ((|probs| - |sub|) as real);
    var r := Spread(q, sub, norm);
    assert r == DampenSpec(probs, sub, cond).value;
    assert Labels(q) == Labels(probs);
    forall i | 0 <= i < |r|
      ensures r[i].1 == if probs[i].0 in sub then cond else probs[i].1 + norm
    {
      AbsorbGet(probs, sub, cond, probs[i].0);
      GetIndexed(q, i);
      GetIndexed(probs, i);
    }
    assert Labels(r) == Labels(q);
  }

  /** Dampening a table with distinct listed labels raises its total by
      exactly `|sub| * cond`: the mass taken from the listed labels is
      handed out in full to the others. */
  lemma DampenTotal(probs: Table, sub: seq<string>, cond: real)
    requires IsTable(probs) && Distinct(sub)
    requires DampenSpec(probs, sub, cond).Success? && 0.0 <= cond <= 1.0
    ensures Total(DampenSpec(probs, sub, cond).value) == Total(probs) + (|sub| as real) * cond
  {
    var q := Absorb(probs, sub, cond).0;
    var s := SumOf(probs, sub);
    var k := |probs| - |sub|;
    var norm := s / (k as real);
    DampenUnfold(probs, sub, cond);
    AbsorbTotal(probs, sub, cond);
    AbsorbLabels(probs, sub, cond);
    assert |q| == |Labels(q)| == |Labels(probs)| == |probs|;
    SpreadTotal(q, sub, norm);
    ShareBack(k, s);
    ScaledIsProduct(|sub|, cond);
    Rebalance(Total(probs), Total(q), Total(Spread(q, sub, norm)), s,
              Scaled(|sub|, cond), Scaled(k, norm));
  }

  lemma DampenUnfold(probs: Table, sub: seq<string>, cond: real)
    requires Distinct(sub)
    requires DampenSpec(probs, sub, cond).Success? && 0.0 <= cond <= 1.0
    ensures |sub| < |probs| && forall e :: e in sub ==> e in Labels(probs)
    ensures DampenSpec(probs, sub, cond).value ==
      Spread(Absorb(probs, sub, cond).0, sub, SumOf(probs, sub) / ((|probs| - |sub|) as real))
  {
    AbsorbSum(probs, sub, cond);
  }

  lemma SpreadTotal(q: Table, sub: seq<string>, norm: real)
    requires IsTable(q) && Distinct(sub) && forall e :: e in sub ==> e in Labels(q)
    requires |sub| <= |q|
    ensures Total(Spread(q, sub, norm)) == Total(q) + Scaled(|q| - |sub|, norm)
  {
    TotalSpread(q, sub, norm);
    UnlistedCount(q, sub);
  }

  lemma Rebalance(t: real, tq: real, tr: real, s: real, a: real, b: real)
    requires tq == t - s + a && tr == tq + b && b == s
    ensures tr == t + a
  {
  }

  /** Handing `s / k` to each of `k` labels hands out `s`. */
  lemma ShareBack(k: nat, s: real)
    requires k > 0
    ensures Scaled(k, s / (k as real)) == s
  {
    ScaledIsProduct(k, s / (k as real));
  }

  lemma {:induction false} GetIndexed(q: Table, i: nat)
    requires IsTable(q) && i < |q|
    ensures Get(q, q[i].0) == q[i].1
  {
    if i > 0 {
      assert Labels(q[1..]) == Labels(q)[1..];
      assert q[0].0 != q[i].0 by { assert Labels(q)[0] != Labels(q)[i]; }
      GetIndexed(q[1..], i - 1);
    }
  }

  /** With `cond = 0` dampening moves weight between labels and keeps the
      total. */
  lemma DampenKeepsMass(probs: Table, sub: seq<string>)
    requires IsTable(probs) && Distinct(sub) && DampenSpec(probs, sub, 0.0).Success?
    ensures Total(DampenSpec(probs, sub, 0.0).value) == Total(probs)
  {
    DampenTotal(probs, sub, 0.0);
  }
}

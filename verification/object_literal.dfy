/**
 * The substitution contexts `writing` passes to `copyTpl` are JavaScript
 * object literals. Their properties are defined left to right, so when a
 * key is written twice the later value is the one the object holds.
 */
module ObjectLiterals {

  /** The property values that occur in the contexts. */
  datatype Value = Str(s: string) | Bool(b: bool) | Undefined

  /** One `key: value` property of a literal, in source order. */
  type Property = (string, Value)

  /** The object a literal evaluates to. */
  type Context = map<string, Value>

  /** `{ k1: v1, ..., kn: vn }`, evaluated left to right. */
  function ObjectLiteral(props: seq<Property>): Context {
    if props == [] then map[]
    else
      var n := |props| - 1;
      ObjectLiteral(props[..n])[props[n].0 := props[n].1]
  }

  /** The object has exactly the keys written in the literal, each holding a value written for it. */
  lemma {:induction false} LiteralKeysAndValues(props: seq<Property>)
    ensures ObjectLiteral(props).Keys == set p | p in props :: p.0
    ensures forall k :: k in ObjectLiteral(props) ==> (k, ObjectLiteral(props)[k]) in props
  {
    if props != [] {
      var n := |props| - 1;
      assert props == props[..n] + [props[n]];
      LiteralKeysAndValues(props[..n]);
    }
  }

  /**
   * A key holds the value of its LAST occurrence in the literal: every
   * earlier property with the same key is overwritten.
   */
  lemma {:induction false} LastOccurrenceWins(props: seq<Property>, i: nat)
    requires i < |props|
    requires forall j :: i < j < |props| ==> props[j].0 != props[i].0
    ensures props[i].0 in ObjectLiteral(props)
    ensures ObjectLiteral(props)[props[i].0] == props[i].1
  {
    var n := |props| - 1;
    if i < n {
      var front := props[..n];
      assert forall j :: i < j < |front| ==> front[j] == props[j];
      LastOccurrenceWins(front, i);
    }
  }

  /**
   * Conversely, whatever a key holds was written by its last occurrence in
   * the literal; this returns that occurrence's position.
   */
  lemma {:induction false} LastWrite(props: seq<Property>, k: string) returns (i: nat)
    requires k in ObjectLiteral(props)
    ensures i < |props| && props[i] == (k, ObjectLiteral(props)[k])
    ensures forall j :: i < j < |props| ==> props[j].0 != k
  {
    var n := |props| - 1;
    if props[n].0 == k {
      i := n;
    } else {
      i := LastWrite(props[..n], k);
      assert forall j :: i < j < n ==> props[..n][j] == props[j];
    }
  }

  /**
   * A property written again later in a literal may as well not be there:
   * dropping it leaves the object unchanged.
   */
  lemma {:induction false} ShadowedPropertyIsDead(props: seq<Property>, i: nat, j: nat)
    requires i < j < |props| && props[i].0 == props[j].0
    ensures ObjectLiteral(props[..i] + props[i + 1..]) == ObjectLiteral(props)
    decreases |props|
  {
    var n := |props| - 1;
    var last := props[n];
    var q := props[..i] + props[i + 1..];
    var front := props[..n];
    assert q[..n - 1] == front[..i] + front[i + 1..];
    assert ObjectLiteral(q) == ObjectLiteral(q[..n - 1])[last.0 := last.1];
    assert ObjectLiteral(props) == ObjectLiteral(front)[last.0 := last.1];
    if j < n {
      ShadowedPropertyIsDead(front, i, j);
    } else {
      var a, b := props[..i], props[i + 1..n];
      assert front == a + [props[i]] + b;
      assert q[..n - 1] == a + b;
      OverwriteAbsorbs(a, props[i], b, last.1);
    }
  }

  /** Setting a key after a literal erases whatever the literal said about it. */
  lemma {:induction false} OverwriteAbsorbs(a: seq<Property>, p: Property, b: seq<Property>, v: Value)
    ensures ObjectLiteral(a + [p] + b)[p.0 := v] == ObjectLiteral(a + b)[p.0 := v]
    decreases |b|
  {
    if b == [] {
      assert a + [p] + b == a + [p];
      assert a + b == a;
      assert ObjectLiteral(a + [p]) == ObjectLiteral(a)[p.0 := p.1];
    } else {
      var m := |b| - 1;
      var c, e := b[..m], b[m];
      var x, y := a + [p] + b, a + b;
      assert x[..|x| - 1] == a + [p] + c && x[|x| - 1] == e;
      assert y[..|y| - 1] == a + c && y[|y| - 1] == e;
      assert ObjectLiteral(x) == ObjectLiteral(a + [p] + c)[e.0 := e.1];
      assert ObjectLiteral(y) == ObjectLiteral(a + c)[e.0 := e.1];
      OverwriteAbsorbs(a, p, c, v);
      UpdateBeneathOverwrite(ObjectLiteral(a + [p] + c), ObjectLiteral(a + c), e.0, e.1, p.0, v);
    }
  }

  /** Two maps that agree once `k` is overwritten still agree after an earlier update. */
  lemma UpdateBeneathOverwrite(m1: Context, m2: Context, k0: string, v0: Value, k: string, v: Value)
    requires m1[k := v] == m2[k := v]
    ensures m1[k0 := v0][k := v] == m2[k0 := v0][k := v]
  {
    var l, r := m1[k0 := v0][k := v], m2[k0 := v0][k := v];
    forall key ensures key in l <==> key in r {
      assert key in m1[k := v] <==> key in m2[k := v];
    }
    forall key | key in l ensures l[key] == r[key] {
      if key != k && key != k0 {
        assert m1[k := v][key] == m2[k := v][key];
      }
    }
  }
}

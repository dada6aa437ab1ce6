/**
 * The merge of merge.go as a function on trees: what `mergeConfig(to, from)`
 * leaves in `to`. Module Engine proves its in-place loop against `Merged`;
 * the lemmas here state what the merge means for lookups and for repeated
 * merges.
 */
module Merge {
  import opened Values
  import opened Paths

  /** Both sides hold a sub-config under the key, so `toConfig` succeeds on
      both and the merge descends instead of overwriting. */
  predicate Descends(a: Tree, b: Tree, k: string)
  {
    && k in a.fields && k in b.fields
    && ToConfig(a.fields[k]).Some? && ToConfig(b.fields[k]).Some?
  }

  /** The entry `mergeConfig` leaves under a key of the source: the two
      sub-configs merged when both sides hold one, otherwise a copy of the
      source's value attached under the key. */
  function MergedAt(a: Tree, b: Tree, k: string): (r: Value)
    requires k in b.fields
    ensures !Descends(a, b, k) ==> r == Cpy(b.fields[k], Ctx(k))
    ensures Descends(a, b, k) ==> r.ctx == a.fields[k].ctx && r.node.Sub?
    decreases b, 0
  {
    var v := b.fields[k];
    if k in a.fields && a.fields[k].node.Sub? && v.node.Sub? then
      a.fields[k].(node := Sub(Merged(a.fields[k].node.cfg, v.node.cfg)))
    else
      Cpy(v, Ctx(k))
  }

  /** The target's fields once the source keys in `done` have been merged. */
  function MergedOn(a: Tree, b: Tree, done: set<string>): (r: map<string, Value>)
    requires done <= b.fields.Keys
    ensures r.Keys == a.fields.Keys + done
    ensures forall k | k in a.fields && k !in done :: r[k] == a.fields[k]
    ensures forall k | k in done :: r[k] == MergedAt(a, b, k)
    decreases b, 1
  {
    a.fields + map k | k in done :: MergedAt(a, b, k)
  }

  /** Merging one more source key extends the partial result by that key. */
  lemma MergedOnStep(a: Tree, b: Tree, done: set<string>, k: string)
    requires done <= b.fields.Keys && k in b.fields && k !in done
    ensures MergedOn(a, b, done)[k := MergedAt(a, b, k)] == MergedOn(a, b, done + {k})
  {
  }

  /** `mergeConfig(to, from)`: every key of either side is present; keys
      only the target has keep their value; where either side is not a
      sub-config the source's value wins; the target's array elements stay,
      since only the named fields of the source are visited. */
  function Merged(a: Tree, b: Tree): (r: Tree)
    ensures r.fields.Keys == a.fields.Keys + b.fields.Keys
    ensures r.arr == a.arr
    ensures forall k | k in a.fields && k !in b.fields :: r.fields[k] == a.fields[k]
    ensures forall k | k in b.fields && !Descends(a, b, k) :: r.fields[k] == Cpy(b.fields[k], Ctx(k))
    decreases b, 2
  {
    Tree(MergedOn(a, b, b.fields.Keys), a.arr)
  }

  /** Where both sides hold a sub-config, the result holds their merge under
      the target's own context. */
  lemma MergedDescends(a: Tree, b: Tree, k: string)
    requires Descends(a, b, k)
    ensures Merged(a, b).fields[k].ctx == a.fields[k].ctx
    ensures Merged(a, b).fields[k].node == Sub(Merged(a.fields[k].node.cfg, b.fields[k].node.cfg))
  {
  }

  /** Merging well-formed trees gives a well-formed tree. */
  lemma {:induction false} MergedWellFormed(a: Tree, b: Tree)
    requires WellFormed(a) && WellFormed(b)
    ensures WellFormed(Merged(a, b))
    decreases b
  {
    var r := Merged(a, b);
    forall k | k in r.fields
      ensures r.fields[k].ctx == Ctx(k) && InnerWellFormed(r.fields[k])
    {
      if k in b.fields && Descends(a, b, k) {
        assert InnerWellFormed(a.fields[k]) && InnerWellFormed(b.fields[k]);
        MergedWellFormed(a.fields[k].node.cfg, b.fields[k].node.cfg);
      } else if k in b.fields {
        assert InnerWellFormed(b.fields[k]);
      } else {
        assert InnerWellFormed(a.fields[k]);
      }
    }
  }

  /** A well-formed tree merged into itself is unchanged. */
  lemma {:induction false} MergedSelf(c: Tree)
    requires WellFormed(c)
    ensures Merged(c, c) == c
    decreases c
  {
    var r := Merged(c, c);
    forall k | k in c.fields ensures r.fields[k] == c.fields[k] {
      if Descends(c, c, k) {
        assert InnerWellFormed(c.fields[k]);
        MergedSelf(c.fields[k].node.cfg);
      }
    }
  }

  /** Merging the same well-formed source twice changes nothing the second
      time. */
  lemma {:induction false} MergedIdempotent(a: Tree, b: Tree)
    requires WellFormed(b)
    ensures Merged(Merged(a, b), b) == Merged(a, b)
    decreases b
  {
    var r := Merged(a, b);
    var r2 := Merged(r, b);
    forall k | k in r2.fields ensures r2.fields[k] == r.fields[k] {
      if k in b.fields && Descends(r, b, k) {
        assert InnerWellFormed(b.fields[k]);
        if Descends(a, b, k) {
          MergedIdempotent(a.fields[k].node.cfg, b.fields[k].node.cfg);
        } else {
          MergedSelf(b.fields[k].node.cfg);
        }
      }
    }
  }

  /** Merging into an empty config gives the (well-formed) source's fields. */
  lemma MergedIntoEmpty(arr: seq<Value>, b: Tree)
    requires WellFormed(b)
    ensures Merged(Tree(map[], arr), b) == Tree(b.fields, arr)
  {
    var r := Merged(Tree(map[], arr), b);
    forall k | k in b.fields ensures r.fields[k] == b.fields[k] {
    }
  }

  /** Merging an empty source changes nothing. */
  lemma MergedEmptySource(a: Tree, arr: seq<Value>)
    ensures Merged(a, Tree(map[], arr)) == a
  {
  }

  /** Every lookup in a well-formed source that ends at a value that is not
      a sub-config reads the same value from the merge result: the source
      wins at leaves. */
  lemma {:induction false} MergedSourceLeafWins(a: Tree, b: Tree, p: seq<string>)
    requires |p| >= 1 && WellFormed(b)
    requires GetValue(b, p, false).Ok? && !GetValue(b, p, false).value.node.Sub?
    ensures GetValue(Merged(a, b), p, false) == GetValue(b, p, false)
    decreases |p|
  {
    var k := p[0];
    if |p| == 1 {
      assert b.fields[k].ctx == Ctx(k);
    } else if Descends(a, b, k) {
      assert InnerWellFormed(b.fields[k]);
      MergedSourceLeafWins(a.fields[k].node.cfg, b.fields[k].node.cfg, p[1..]);
    }
  }

  /** A lookup that succeeds in the target and finds nothing in the source
      reads the target's value from the merge result: the target's keys are
      kept. */
  lemma {:induction false} MergedKeepsTargetPath(a: Tree, b: Tree, p: seq<string>)
    requires |p| >= 1
    requires GetValue(a, p, false).Ok?
    requires GetValue(b, p, false).Err? && GetValue(b, p, false).error.Missing?
    ensures GetValue(Merged(a, b), p, false) == GetValue(a, p, false)
    decreases |p|
  {
    var k := p[0];
    if |p| > 1 && k in b.fields {
      MergedKeepsTargetPath(a.fields[k].node.cfg, b.fields[k].node.cfg, p[1..]);
    }
  }

  /** An array-form sub-config merged into another keeps the target's
      elements: `mergeConfig` only visits named fields. */
  lemma MergedKeepsTargetArray(a: Tree, b: Tree, k: string)
    requires Descends(a, b, k)
    ensures Merged(a, b).fields[k].node.cfg.arr == a.fields[k].node.cfg.arr
  {
    MergedDescends(a, b, k);
  }
}

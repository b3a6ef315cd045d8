/** The one `FormArray` edit both editors share besides `push`. */
module FormArrays {
  /**
   * `removeAt(index)`: entry `index` goes and the others keep their order;
   * an index past the end removes nothing (`splice` past the end).
   */
  function RemoveAt<X>(s: seq<X>, index: nat): (r: seq<X>)
    ensures index < |s| ==> |r| == |s| - 1
    ensures index < |s| ==> forall k :: 0 <= k < index ==> r[k] == s[k]
    ensures index < |s| ==> forall k :: index <= k < |r| ==> r[k] == s[k + 1]
    ensures index >= |s| ==> r == s
  {
    if index < |s| then s[..index] + s[index + 1..] else s
  }

  /** Removing from a list leaves a sub-list: every entry left was there before. */
  lemma RemoveAtKeepsEntries<X>(s: seq<X>, index: nat, x: X)
    requires x in RemoveAt(s, index)
    ensures x in s
  {
    var r := RemoveAt(s, index);
    var k :| 0 <= k < |r| && r[k] == x;
    if index < |s| && k >= index {
      assert s[k + 1] == x;
    }
  }

  /**
   * Concatenation is associative. Dafny knows this, but stating it as a lemma
   * over opaque arguments keeps large concatenation proofs cheap.
   */
  lemma AppendAssoc<X>(a: seq<X>, b: seq<X>, c: seq<X>)
    ensures (a + b) + c == a + (b + c)
  {
  }
}

/** Chord-type tables as both `src/chordLibrary.js` and `src/musicData.js` declare them: an
    object from a type key to its intervals above the root and a display name. */
module ChordTypes {
  import opened Js

  /** An entry of `CHORD_TYPES`: its key, its intervals above the root, its display name. */
  datatype ChordType = ChordType(key: string, intervals: seq<int>, name: string)

  predicate StrictlyAscending(s: seq<int>)
  {
    forall i, j :: 0 <= i < j < |s| ==> s[i] < s[j]
  }

  /** `s.map(n => n + c)` */
  function Shifted(s: seq<int>, c: int): (r: seq<int>)
    ensures |r| == |s| && forall i :: 0 <= i < |s| ==> r[i] == s[i] + c
    ensures StrictlyAscending(s) ==> StrictlyAscending(r)
  {
    seq(|s|, i requires 0 <= i < |s| => s[i] + c)
  }

  function Keys(types: seq<ChordType>): (r: seq<string>)
    ensures |r| == |types| && forall i :: 0 <= i < |types| ==> r[i] == types[i].key
  {
    seq(|types|, i requires 0 <= i < |types| => types[i].key)
  }

  /** `CHORD_TYPES[key]`: the first entry with that key. */
  function Lookup(types: seq<ChordType>, key: string): (r: Option<ChordType>)
    ensures r.Some? <==> key in Keys(types)
    ensures r.Some? ==> r.value in types && r.value.key == key
  {
    if |types| == 0 then None
    else if types[0].key == key then Some(types[0])
    else
      assert Keys(types)[1..] == Keys(types[1..]);
      Lookup(types[1..], key)
  }
}

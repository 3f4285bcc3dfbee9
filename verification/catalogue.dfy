/**
 * The chord reference table of the API server and the lookups defined on it.
 * The table is a JavaScript object literal; its keys keep their insertion order,
 * which is the order `Object.keys` and `Object.values` report.
 */
module ChordCatalogue {
  import opened Wrappers
  import Seqs
  import Text

  /** One finger placement: guitar string 1..6, fret, and finger (0 = open string). */
  datatype Position = Position(stringIndex: int, fret: int, finger: int)

  /** A full chord definition. `isBarreChord` is false where the source omits the field. */
  datatype ChordRecord = ChordRecord(
    id: string,
    name: string,
    displayName: string,
    difficulty: string,
    positions: seq<Position>,
    tips: string,
    audioUrl: string,
    isBarreChord: bool)

  /** A table value: a full record, or a stub `{ redirect: target }` that names another key. */
  datatype Entry = Full(chord: ChordRecord) | Redirect(target: string) {

    /** `entry.difficulty`; a stub has none (`undefined`). */
    function Difficulty(): Option<string> {
      if Full? then Some(chord.difficulty) else None
    }
  }

  /** The table as its key/value pairs in insertion order. */
  type ChordTable = seq<(string, Entry)>

  function Keys(t: ChordTable): (ks: seq<string>)
    ensures |ks| == |t|
    ensures forall i :: 0 <= i < |t| ==> ks[i] == t[i].0
  {
    seq(|t|, i requires 0 <= i < |t| => t[i].0)
  }

  function Values(t: ChordTable): (vs: seq<Entry>)
    ensures |vs| == |t|
    ensures forall i :: 0 <= i < |t| ==> vs[i] == t[i].1
  {
    seq(|t|, i requires 0 <= i < |t| => t[i].1)
  }

  predicate DistinctKeys(t: ChordTable) {
    forall i, j :: 0 <= i < j < |t| ==> t[i].0 != t[j].0
  }

  /** `table[key]` for an own key of the table, or `None` when the key is absent. */
  function Lookup(t: ChordTable, key: string): (r: Option<Entry>)
    ensures r.None? <==> key !in Keys(t)
    ensures r.Some? ==> (key, r.value) in t
    decreases |t|
  {
    if |t| == 0 then None
    else if t[0].0 == key then Some(t[0].1)
    else
      assert Keys(t) == [t[0].0] + Keys(t[1..]);
      Lookup(t[1..], key)
  }

  /** In a table without repeated keys, looking up the key at any index yields the value there. */
  lemma {:induction false} LookupDistinct(t: ChordTable, i: int)
    requires DistinctKeys(t)
    requires 0 <= i < |t|
    ensures Lookup(t, t[i].0) == Some(t[i].1)
    decreases i
  {
    if i > 0 {
      assert t[0].0 != t[i].0;
      LookupDistinct(t[1..], i - 1);
    }
  }

  /** The key form used by every lookup: lower-cased, with every whitespace character removed. */
  function NormaliseKey(name: string): (k: string)
    ensures forall i :: 0 <= i < |k| ==> !Text.IsSpace(k[i]) && !Text.IsUpper(k[i])
    ensures |k| <= |name|
    ensures k == Text.ToLower(Seqs.Filter(Text.NotSpace, name))
  {
    var k := Text.StripSpaces(Text.ToLower(name));
    Seqs.SubsequenceLength(k, Text.ToLower(name));
    Text.StripSpacesOfLower(name);
    k
  }

  /** Normalising an already normalised key changes nothing. */
  lemma NormaliseKeyIdempotent(name: string)
    ensures NormaliseKey(NormaliseKey(name)) == NormaliseKey(name)
  {
    var k := NormaliseKey(name);
    assert Text.ToLower(k) == k;
    Seqs.FilterKeepsAll(Text.NotSpace, k);
  }

  /** Shorthand for the position triples of the table below: (string, fret, finger). */
  function P(stringIndex: int, fret: int, finger: int): Position {
    Position(stringIndex, fret, finger)
  }

  /** The full records of the reference table, one constant per chord. */
  const ChordA: ChordRecord := ChordRecord("a", "A Major", "A", "beginner",
    [P(2, 2, 1), P(3, 2, 2), P(4, 2, 3)],
    "Keep fingers curved and press firmly behind the frets",
    "/audio/chords/a.mp3", false)

  const ChordC: ChordRecord := ChordRecord("c", "C Major", "C", "beginner",
    [P(2, 1, 1), P(4, 2, 2), P(5, 3, 3)],
    "Stretch your fingers and avoid touching other strings",
    "/audio/chords/c.mp3", false)

  const ChordD: ChordRecord := ChordRecord("d", "D Major", "D", "beginner",
    [P(1, 2, 1), P(2, 2, 3), P(3, 3, 2)],
    "Form a triangle with your fingers",
    "/audio/chords/d.mp3", false)

  const ChordE: ChordRecord := ChordRecord("e", "E Major", "E", "beginner",
    [P(3, 1, 1), P(5, 2, 2), P(4, 2, 3)],
    "Similar to Em but add one finger on the G string",
    "/audio/chords/e.mp3", false)

  const ChordG: ChordRecord := ChordRecord("g", "G Major", "G", "intermediate",
    [P(1, 3, 2), P(6, 3, 1), P(5, 2, 3)],
    "Use fingertips and arch your hand",
    "/audio/chords/g.mp3", false)

  const ChordAm: ChordRecord := ChordRecord("am", "A Minor", "Am", "beginner",
    [P(2, 1, 1), P(3, 2, 2), P(4, 2, 3)],
    "Very similar to A major, just move one finger",
    "/audio/chords/am.mp3", false)

  const ChordEm: ChordRecord := ChordRecord("em", "E Minor", "Em", "beginner",
    [P(5, 2, 2), P(4, 2, 3)],
    "One of the easiest chords - great for beginners",
    "/audio/chords/em.mp3", false)

  const ChordDm: ChordRecord := ChordRecord("dm", "D Minor", "Dm", "beginner",
    [P(1, 1, 1), P(2, 3, 3), P(3, 2, 2)],
    "Keep fingers close to frets and arch your hand",
    "/audio/chords/dm.mp3", false)

  const ChordF: ChordRecord := ChordRecord("f", "F Major", "F", "intermediate",
    [P(1, 1, 1), P(2, 1, 1), P(3, 2, 2), P(4, 3, 4), P(5, 3, 3), P(6, 1, 1)],
    "First barre chord! Press firmly across 1st fret with index finger",
    "/audio/chords/f.mp3", true)

  const ChordBm: ChordRecord := ChordRecord("bm", "B Minor", "Bm", "intermediate",
    [P(1, 2, 1), P(2, 3, 2), P(3, 4, 4), P(4, 4, 3), P(5, 2, 1), P(6, 2, 1)],
    "Barre chord - press index finger across all strings at 2nd fret",
    "/audio/chords/bm.mp3", true)

  const ChordA7: ChordRecord := ChordRecord("a7", "A Dominant 7", "A7", "intermediate",
    [P(2, 2, 2), P(4, 2, 3)],
    "Easy version of A7 - just two fingers!",
    "/audio/chords/a7.mp3", false)

  const ChordD7: ChordRecord := ChordRecord("d7", "D Dominant 7", "D7", "intermediate",
    [P(1, 2, 2), P(2, 1, 1), P(3, 2, 3)],
    "Great for blues and country music",
    "/audio/chords/d7.mp3", false)

  const ChordE7: ChordRecord := ChordRecord("e7", "E Dominant 7", "E7", "intermediate",
    [P(3, 1, 1), P(5, 2, 2)],
    "Like E major but remove one finger",
    "/audio/chords/e7.mp3", false)

  const ChordG7: ChordRecord := ChordRecord("g7", "G Dominant 7", "G7", "intermediate",
    [P(1, 1, 1), P(6, 3, 3), P(5, 2, 2)],
    "Common in folk and country music",
    "/audio/chords/g7.mp3", false)

  const ChordA5: ChordRecord := ChordRecord("a5", "A Power Chord", "A5", "intermediate",
    [P(6, 5, 1), P(5, 7, 3)],
    "Great for rock music - only 2 fingers needed",
    "/audio/chords/a5.mp3", false)

  const ChordE5: ChordRecord := ChordRecord("e5", "E Power Chord", "E5", "intermediate",
    [P(6, 0, 0), P(5, 2, 2)],
    "Classic rock chord - open low E string",
    "/audio/chords/e5.mp3", false)

  const ChordDsus2: ChordRecord := ChordRecord("dsus2", "D Suspended 2", "Dsus2", "intermediate",
    [P(1, 0, 0), P(2, 3, 3), P(3, 2, 2)],
    "Creates tension that wants to resolve to D major",
    "/audio/chords/dsus2.mp3", false)

  const ChordDsus4: ChordRecord := ChordRecord("dsus4", "D Suspended 4", "Dsus4", "intermediate",
    [P(1, 3, 3), P(2, 3, 4), P(3, 2, 2)],
    "Common in folk music - like D but with pinky added",
    "/audio/chords/dsus4.mp3", false)

  const ChordCadd9: ChordRecord := ChordRecord("cadd9", "C Add 9", "Cadd9", "intermediate",
    [P(1, 3, 4), P(2, 3, 3), P(4, 2, 2), P(5, 3, 1)],
    "Beautiful open chord - adds color to C major",
    "/audio/chords/cadd9.mp3", false)

  const ChordGOverB: ChordRecord := ChordRecord("g/b", "G over B", "G/B", "advanced",
    [P(1, 3, 4), P(2, 0, 0), P(3, 0, 0), P(4, 0, 0), P(5, 2, 2), P(6, 2, 1)],
    "Bass note is B - creates smooth bass line movement",
    "/audio/chords/gb.mp3", false)

  /** The major chords and their long-name stubs. */
  const MajorPart: ChordTable := [
      ("a", Full(ChordA)),
      ("amajor", Redirect("a")),
      ("c", Full(ChordC)),
      ("cmajor", Redirect("c")),
      ("d", Full(ChordD)),
      ("dmajor", Redirect("d")),
      ("e", Full(ChordE)),
      ("emajor", Redirect("e")),
      ("g", Full(ChordG)),
      ("gmajor", Redirect("g"))
    ]

  /** The minor chords, F major, and their long-name stubs. */
  const MinorPart: ChordTable := [
      ("am", Full(ChordAm)),
      ("aminor", Redirect("am")),
      ("em", Full(ChordEm)),
      ("eminor", Redirect("em")),
      ("dm", Full(ChordDm)),
      ("dminor", Redirect("dm")),
      ("f", Full(ChordF)),
      ("fmajor", Redirect("f")),
      ("bm", Full(ChordBm)),
      ("bminor", Redirect("bm"))
    ]

  /** The seventh, power, suspended, added-ninth and slash chords. */
  const ExtendedPart: ChordTable := [
      ("a7", Full(ChordA7)),
      ("d7", Full(ChordD7)),
      ("e7", Full(ChordE7)),
      ("g7", Full(ChordG7)),
      ("a5", Full(ChordA5)),
      ("e5", Full(ChordE5)),
      ("dsus2", Full(ChordDsus2)),
      ("dsus4", Full(ChordDsus4)),
      ("cadd9", Full(ChordCadd9)),
      ("g/b", Full(ChordGOverB))
    ]

  /** The reference table of the API server, entry for entry, in the source's key order. */
  const Table: ChordTable := MajorPart + MinorPart + ExtendedPart

  /** Every stub points at a key that holds a full record. */
  predicate RedirectsResolve(t: ChordTable) {
    forall i :: 0 <= i < |t| && t[i].1.Redirect? ==>
      var target := Lookup(t, t[i].1.target);
      target.Some? && target.value.Full?
  }

  /** Every full record carries its own key as `id`. */
  predicate IdsMatchKeys(t: ChordTable) {
    forall i :: 0 <= i < |t| && t[i].1.Full? ==> t[i].1.chord.id == t[i].0
  }

  /** Every finger position names one of the six strings. */
  predicate StringsInRange(t: ChordTable) {
    forall i, k :: 0 <= i < |t| && t[i].1.Full? && 0 <= k < |t[i].1.chord.positions| ==>
      1 <= t[i].1.chord.positions[k].stringIndex <= 6
  }

  predicate WellFormed(t: ChordTable) {
    DistinctKeys(t) && RedirectsResolve(t) && IdsMatchKeys(t) && StringsInRange(t)
  }

  /** Each stub sits right after the full record it points to (the layout of the source table). */
  predicate StubsFollowTargets(t: ChordTable) {
    forall i :: 0 <= i < |t| && t[i].1.Redirect? ==>
      1 <= i && t[i - 1].0 == t[i].1.target && t[i - 1].1.Full?
  }

  /** In a table without repeated keys, that layout makes every stub resolve to a full record. */
  lemma StubsResolve(t: ChordTable)
    requires DistinctKeys(t) && StubsFollowTargets(t)
    ensures RedirectsResolve(t)
  {
    forall i | 0 <= i < |t| && t[i].1.Redirect?
      ensures var target := Lookup(t, t[i].1.target); target.Some? && target.value.Full?
    {
      LookupDistinct(t, i - 1);
    }
  }

  /** No key of `a` is a key of `b`. */
  predicate KeysDisjoint(a: ChordTable, b: ChordTable) {
    forall i, j :: 0 <= i < |a| && 0 <= j < |b| ==> a[i].0 != b[j].0
  }

  /** Joining two tables keeps each of the four invariants that holds of both halves. */
  lemma AppendPreserves(a: ChordTable, b: ChordTable)
    ensures DistinctKeys(a) && DistinctKeys(b) && KeysDisjoint(a, b) ==> DistinctKeys(a + b)
    ensures StubsFollowTargets(a) && StubsFollowTargets(b) ==> StubsFollowTargets(a + b)
    ensures IdsMatchKeys(a) && IdsMatchKeys(b) ==> IdsMatchKeys(a + b)
    ensures StringsInRange(a) && StringsInRange(b) ==> StringsInRange(a + b)
  {
    var t := a + b;
    assert forall i :: |a| <= i < |t| ==> t[i] == b[i - |a|];
  }

  lemma MajorKeysDistinct()
    ensures DistinctKeys(MajorPart)
  {
  }

  lemma MinorKeysDistinct()
    ensures DistinctKeys(MinorPart)
  {
  }

  lemma ExtendedKeysDistinct()
    ensures DistinctKeys(ExtendedPart)
  {
  }

  lemma PartsKeysDistinct()
    ensures DistinctKeys(MajorPart) && DistinctKeys(MinorPart) && DistinctKeys(ExtendedPart)
  {
    MajorKeysDistinct();
    MinorKeysDistinct();
    ExtendedKeysDistinct();
  }

  lemma MajorMinorDisjoint()
    ensures KeysDisjoint(MajorPart, MinorPart)
  {
  }

  lemma MajorExtendedDisjoint()
    ensures KeysDisjoint(MajorPart, ExtendedPart)
  {
  }

  lemma MinorExtendedDisjoint()
    ensures KeysDisjoint(MinorPart, ExtendedPart)
  {
  }

  /** A table disjoint from both halves of a join is disjoint from the join. */
  lemma DisjointAppend(a: ChordTable, b: ChordTable, c: ChordTable)
    requires KeysDisjoint(a, c) && KeysDisjoint(b, c)
    ensures KeysDisjoint(a + b, c)
  {
    var ab := a + b;
    assert forall i :: |a| <= i < |ab| ==> ab[i] == b[i - |a|];
  }

  lemma PartsKeysDisjoint()
    ensures KeysDisjoint(MajorPart, MinorPart)
    ensures KeysDisjoint(MajorPart + MinorPart, ExtendedPart)
  {
    MajorMinorDisjoint();
    MajorExtendedDisjoint();
    MinorExtendedDisjoint();
    DisjointAppend(MajorPart, MinorPart, ExtendedPart);
  }

  lemma TableKeysDistinct()
    ensures DistinctKeys(Table)
  {
    PartsKeysDistinct();
    PartsKeysDisjoint();
    AppendPreserves(MajorPart, MinorPart);
    AppendPreserves(MajorPart + MinorPart, ExtendedPart);
  }

  lemma MajorStubsFollowTargets()
    ensures StubsFollowTargets(MajorPart)
  {
    forall i | 0 <= i < |MajorPart| && MajorPart[i].1.Redirect?
      ensures 1 <= i && MajorPart[i - 1].0 == MajorPart[i].1.target && MajorPart[i - 1].1.Full?
    {
      assert i % 2 == 1;
    }
  }

  lemma MinorStubsFollowTargets()
    ensures StubsFollowTargets(MinorPart)
  {
    forall i | 0 <= i < |MinorPart| && MinorPart[i].1.Redirect?
      ensures 1 <= i && MinorPart[i - 1].0 == MinorPart[i].1.target && MinorPart[i - 1].1.Full?
    {
      assert i % 2 == 1;
    }
  }

  lemma ExtendedStubsFollowTargets()
    ensures StubsFollowTargets(ExtendedPart)
  {
    assert forall i :: 0 <= i < |ExtendedPart| ==> ExtendedPart[i].1.Full?;
  }

  lemma PartsStubsFollowTargets()
    ensures StubsFollowTargets(MajorPart) && StubsFollowTargets(MinorPart) && StubsFollowTargets(ExtendedPart)
  {
    MajorStubsFollowTargets();
    MinorStubsFollowTargets();
    ExtendedStubsFollowTargets();
  }

  lemma PartsIdsMatchKeys()
    ensures IdsMatchKeys(MajorPart) && IdsMatchKeys(MinorPart) && IdsMatchKeys(ExtendedPart)
  {
  }

  lemma MajorStringsInRange()
    ensures StringsInRange(MajorPart)
  {
  }

  lemma MinorStringsInRange()
    ensures StringsInRange(MinorPart)
  {
  }

  lemma ExtendedStringsInRange()
    ensures StringsInRange(ExtendedPart)
  {
  }

  lemma TableStubsFollowTargets()
    ensures StubsFollowTargets(Table)
  {
    PartsStubsFollowTargets();
    AppendPreserves(MajorPart, MinorPart);
    AppendPreserves(MajorPart + MinorPart, ExtendedPart);
  }

  lemma TableIdsMatchKeys()
    ensures IdsMatchKeys(Table)
  {
    PartsIdsMatchKeys();
    AppendPreserves(MajorPart, MinorPart);
    AppendPreserves(MajorPart + MinorPart, ExtendedPart);
  }

  lemma TableStringsInRange()
    ensures StringsInRange(Table)
  {
    MajorStringsInRange();
    MinorStringsInRange();
    ExtendedStringsInRange();
    AppendPreserves(MajorPart, MinorPart);
    AppendPreserves(MajorPart + MinorPart, ExtendedPart);
  }

  /**
   * The reference table's invariants: no key twice, every stub names a key holding a full
   * record, every record's `id` is its key, and every position names a string in 1..6.
   */
  lemma TableWellFormed()
    ensures WellFormed(Table)
  {
    TableKeysDistinct();
    TableStubsFollowTargets();
    StubsResolve(Table);
    TableIdsMatchKeys();
    TableStringsInRange();
  }
}

/** A locale's lookup index against the walk it replaces: a flat table of lowered dot paths,
    filled in place, that has to answer every query as a case-insensitive descent of the nested
    maps does. */
module LocaleIndex {
  import opened Wrappers
  import opened LocaleText

  /** A parsed value. `shown` is its printed form; a list also has its items' printed forms. */
  datatype Value =
    | Null
    | Text(s: string)
    | Scalar(shown: string)
    | List(items: seq<string>, shown: string)
    | Map(entries: map<string, Value>, shown: string)

  function Shown(v: Value): string {
    match v
    case Null => ""
    case Text(s) => s
    case _ => v.shown
  }

  /** The string list a value resolves to: its items, or the words of its printed form. */
  datatype Words = Items(items: seq<string>) | WordsOf(text: string) | Missing

  function ToWords(v: Value): Words {
    if v == Null then Missing else if v.List? then Items(v.items) else WordsOf(Shown(v))
  }

  // The walk.

  /** No map in the tree holds two keys that differ only in case. */
  ghost predicate NoCollision(v: Value)
    decreases v
  {
    v.Map? ==>
      && (forall j, k :: j in v.entries && k in v.entries && Lower(j) == Lower(k) ==> j == k)
      && (forall k :: k in v.entries ==> NoCollision(v.entries[k]))
  }

  ghost predicate AsciiKeys(v: Value)
    decreases v
  {
    v.Map? ==> forall k :: k in v.entries ==> Ascii(k) && AsciiKeys(v.entries[k])
  }

  /** The value at the end of a path of lowered segments. */
  ghost function Found(v: Value, segs: seq<string>): Option<Value>
    decreases |segs|
  {
    if segs == [] then Some(v)
    else if v.Map? && exists k :: k in v.entries && Lower(k) == segs[0] then
      var k :| k in v.entries && Lower(k) == segs[0];
      Found(v.entries[k], segs[1..])
    else None
  }

  method LookupSegment(m: Value, seg: string) returns (value: Option<Value>)
    requires m.Map?
    ensures seg in m.entries ==> value == Some(m.entries[seg])
    ensures seg !in m.entries ==>
              if exists k :: k in m.entries && Fold(k) == Fold(seg)
              then exists k :: k in m.entries && Fold(k) == Fold(seg) && value == Some(m.entries[k])
              else value == None
  {
    if seg in m.entries {
      return Some(m.entries[seg]);
    }
    var keys := m.entries.Keys;
    while keys != {}
      invariant keys <= m.entries.Keys
      invariant forall k :: k in m.entries && k !in keys ==> Fold(k) != Fold(seg)
      decreases |keys|
    {
      var k :| k in keys;
      if Fold(k) == Fold(seg) {
        return Some(m.entries[k]);
      }
      keys := keys - {k};
    }
    return None;
  }

  /** A value a descent may end at, when several keys of one map fold alike. */
  ghost predicate Descends(v: Value, segs: seq<string>, end: Option<Value>)
    decreases |segs|
  {
    if segs == [] then end == Some(v)
    else if v.Map? && exists k :: k in v.entries && Fold(k) == segs[0]
    then exists k :: k in v.entries && Fold(k) == segs[0] && Descends(v.entries[k], segs[1..], end)
    else end == None
  }

  /** The value at the end of a path in its exact case. */
  function Exactly(v: Value, segs: seq<string>): Option<Value>
    decreases |segs|
  {
    if segs == [] then Some(v)
    else if v.Map? && segs[0] in v.entries then Exactly(v.entries[segs[0]], segs[1..])
    else None
  }

  /** A path in its exact case goes from map to map, one written key at a time. */
  lemma ExactPaths(v: Value, k: string, rest: seq<string>)
    ensures Exactly(v, []) == Some(v)
    ensures v.Map? && k in v.entries ==> Exactly(v, [k] + rest) == Exactly(v.entries[k], rest)
    ensures !v.Map? || k !in v.entries ==> Exactly(v, [k] + rest) == None
  {
    assert ([k] + rest)[1..] == rest;
  }

  /** Descends a locale along a dot path, ignoring case, and takes the exact case wherever the
      locale has it. */
  method Lookup(data: Value, key: string) returns (value: Option<Value>)
    requires data.Map?
    ensures Descends(data, FoldAll(Split(key)), value)
    ensures Exactly(data, Split(key)).Some? ==> value == Exactly(data, Split(key))
  {
    var segments := Split(key);
    ghost var folded := FoldAll(segments);
    var current := data;
    for i := 0 to |segments|
      invariant forall end :: Descends(current, folded[i..], end) ==> Descends(data, folded, end)
      invariant Exactly(data, segments).Some? ==> Exactly(data, segments) == Exactly(current, segments[i..])
    {
      var seg := segments[i];
      assert folded[i..][0] == Fold(seg) && folded[i..][1..] == folded[i + 1..];
      assert segments[i..][0] == seg && segments[i..][1..] == segments[i + 1..];
      if !current.Map? {
        return None;
      }
      var next := LookupSegment(current, seg);
      if next == None {
        return None;
      }
      ghost var k :| k in current.entries && Fold(k) == Fold(seg) && next == Some(current.entries[k]);
      current := next.value;
    }
    return Some(current);
  }

  /** With ASCII keys and no collision the descent is determined, and finds exactly the value
      whose lowered path is the folded query. */
  lemma {:induction false} DescentIsDetermined(v: Value, segs: seq<string>, end: Option<Value>)
    requires NoCollision(v) && AsciiKeys(v) && Descends(v, segs, end)
    ensures end == Found(v, segs)
    decreases |segs|
  {
    if segs != [] && v.Map? {
      forall k | k in v.entries
        ensures Fold(k) == Lower(k)
      {
        FoldIsLowerExactly(k);
      }
      if exists k :: k in v.entries && Fold(k) == segs[0] {
        var k :| k in v.entries && Fold(k) == segs[0] && Descends(v.entries[k], segs[1..], end);
        assert Lower(k) == segs[0];
        DescentIsDetermined(v.entries[k], segs[1..], end);
      }
    }
  }

  // The index.

  /** What the two tables hold for one lowered path. */
  datatype Cell = Cell(scalar: Option<string>, slice: Option<seq<string>>)

  const NOTHING := Cell(None, None)

  function CellOf(v: Option<Value>): Cell {
    if v == None || v.value == Null then NOTHING
    else Cell(Some(Shown(v.value)), if v.value.List? then Some(v.value.items) else None)
  }

  function Prefix(prefix: string): seq<string> {
    if prefix == "" then [] else Split(Lower(prefix))
  }

  /** The path lies strictly below the prefix. */
  predicate Below(prefix: string, path: string) {
    |Split(path)| > |Prefix(prefix)| && Split(path)[..|Prefix(prefix)|] == Prefix(prefix)
  }

  function Rest(prefix: string, path: string): seq<string>
    requires Below(prefix, path)
  {
    Split(path)[|Prefix(prefix)|..]
  }

  /** Nothing below the map ever reaches the tables. */
  predicate Barren(m: Value) {
    m.Map? && forall k :: k in m.entries ==> !DotFree(k) || m.entries[k] == Null
  }

  /** A root key without a name over a map with something to look up. */
  predicate NamelessRoot(data: Value) {
    data.Map? && "" in data.entries && data.entries[""].Map? && !Barren(data.entries[""])
  }

  lemma NamelessRootExactly(data: Value)
    ensures NamelessRoot(data) <==>
            && data.Map? && "" in data.entries && data.entries[""].Map?
            && exists k :: k in data.entries[""].entries && '.' !in k && data.entries[""].entries[k] != Null
  {
  }

  function JoinPath(prefix: string, key: string): string {
    if prefix != "" then prefix + "." + key else key
  }

  lemma JoinedPath(prefix: string, key: string)
    requires DotFree(key)
    ensures Split(Lower(JoinPath(prefix, key))) == Prefix(prefix) + [Lower(key)]
    ensures JoinPath(prefix, key) == "" <==> prefix == "" && key == ""
  {
    LowerDotFree(key);
    if prefix == "" {
      SplitDotFree(Lower(key));
    } else {
      LowerAppend(prefix + ".", key);
      LowerAppend(prefix, ".");
      assert Lower(".") == ".";
      SplitAppend(Lower(prefix), Lower(key));
    }
  }

  /** The paths at and below a joined path, among those below its prefix. */
  lemma PathsBelow(prefix: string, key: string, q: string)
    requires DotFree(key)
    ensures q == Lower(JoinPath(prefix, key)) <==> Below(prefix, q) && Rest(prefix, q) == [Lower(key)]
    ensures JoinPath(prefix, key) != "" ==>
              var path := JoinPath(prefix, key);
              && (Below(path, q) <==> Below(prefix, q) && |Rest(prefix, q)| > 1 && Rest(prefix, q)[0] == Lower(key))
              && (Below(path, q) ==> Rest(path, q) == Rest(prefix, q)[1..])
  {
    var path, segs := JoinPath(prefix, key), Prefix(prefix);
    JoinedPath(prefix, key);
    if Split(q) == Split(Lower(path)) {
      SplitIsInjective(q, Lower(path));
    }
    if Below(prefix, q) {
      assert Split(q) == segs + Rest(prefix, q);
      if |Rest(prefix, q)| > 1 {
        assert Split(q)[..|segs| + 1] == segs + [Rest(prefix, q)[0]];
      }
    }
    if path != "" && Below(path, q) {
      assert Split(q)[..|segs|] == Split(q)[..|segs| + 1][..|segs|] == segs;
      assert Split(q)[|segs|] == Split(q)[..|segs| + 1][|segs|] == Lower(key);
    }
  }

  /** What is found in a map with one more key. */
  lemma FoundWithKey(done: Value, k: string, v: Value, segs: seq<string>)
    requires done.Map? && k !in done.entries && segs != []
    requires forall j :: j in done.entries ==> Lower(j) != Lower(k)
    requires forall i, j :: i in done.entries && j in done.entries && Lower(i) == Lower(j) ==> i == j
    ensures Found(done.(entries := done.entries[k := v]), segs)
            == if segs[0] == Lower(k) then Found(v, segs[1..]) else Found(done, segs)
  {
    var more := done.(entries := done.entries[k := v]);
    if segs[0] == Lower(k) {
      assert k in more.entries;
    } else if exists j :: j in done.entries && Lower(j) == segs[0] {
      var j :| j in done.entries && Lower(j) == segs[0];
      assert j in more.entries;
    }
  }

  /** A snapshot of the two tables. */
  datatype Tables = Tables(scalars: map<string, string>, slices: map<string, seq<string>>)

  function CellIn(t: Tables, path: string): Cell {
    Cell(if path in t.scalars then Some(t.scalars[path]) else None,
         if path in t.slices then Some(t.slices[path]) else None)
  }

  /** Below the prefix the tables hold what a descent of the map finds, and elsewhere what they
      held before. */
  ghost predicate Filled(before: Tables, after: Tables, prefix: string, m: Value) {
    forall q :: CellIn(after, q) == if Below(prefix, q) then CellOf(Found(m, Rest(prefix, q))) else CellIn(before, q)
  }

  ghost predicate Added(before: Tables, after: Tables, path: string, value: Value) {
    if value == Null then after == before
    else forall q :: CellIn(after, q) == if q == path then CellOf(Some(value)) else CellIn(before, q)
  }

  ghost predicate EmptyBelow(t: Tables, prefix: string) {
    forall q :: Below(prefix, q) ==> CellIn(t, q) == NOTHING
  }

  ghost predicate DistinctFrom(done: Value, key: string) {
    && done.Map? && key !in done.entries
    && (forall j :: j in done.entries ==> Lower(j) != Lower(key))
    && (forall i, j :: i in done.entries && j in done.entries && Lower(i) == Lower(j) ==> i == j)
  }

  function With(done: Value, key: string, value: Value): Value
    requires done.Map?
  {
    done.(entries := done.entries[key := value])
  }

  /** Nothing is recorded yet at and below the path of a key not taken so far. */
  lemma KeyIsFree(start: Tables, t: Tables, prefix: string, done: Value, key: string)
    requires Filled(start, t, prefix, done) && EmptyBelow(start, prefix) && DistinctFrom(done, key) && DotFree(key)
    ensures CellIn(t, Lower(JoinPath(prefix, key))) == NOTHING
    ensures JoinPath(prefix, key) != "" ==> EmptyBelow(t, JoinPath(prefix, key))
  {
    PathsBelow(prefix, key, Lower(JoinPath(prefix, key)));
    if JoinPath(prefix, key) != "" {
      forall q | Below(JoinPath(prefix, key), q)
        ensures CellIn(t, q) == NOTHING
      {
        PathsBelow(prefix, key, q);
      }
    }
  }

  /** A path is not below itself. */
  lemma KeyLeavesTheRestFree(before: Tables, own: Tables, path: string, value: Value)
    requires path != "" && EmptyBelow(before, path) && Added(before, own, Lower(path), value)
    ensures EmptyBelow(own, path)
  {
  }

  /** One more key: its own path, then everything below it. */
  lemma KeyIsFilled(start: Tables, t: Tables, own: Tables, after: Tables, prefix: string, done: Value, key: string,
                    value: Value)
    requires Filled(start, t, prefix, done) && EmptyBelow(start, prefix) && DistinctFrom(done, key) && DotFree(key)
    requires Added(t, own, Lower(JoinPath(prefix, key)), value)
    requires if value.Map? && !Barren(value)
             then JoinPath(prefix, key) != "" && Filled(own, after, JoinPath(prefix, key), value) else after == own
    ensures Filled(start, after, prefix, With(done, key, value))
  {
    forall q
      ensures CellIn(after, q) ==
              if Below(prefix, q) then CellOf(Found(With(done, key, value), Rest(prefix, q))) else CellIn(start, q)
    {
      PathsBelow(prefix, key, q);
      if Below(prefix, q) {
        FoundWithKey(done, key, value, Rest(prefix, q));
        if Rest(prefix, q)[0] == Lower(key) && |Rest(prefix, q)| > 1 {
          SegmentsAreDotFree(q);
          assert Rest(prefix, q)[1] in Split(q);
          NothingBelow(value, Rest(prefix, q)[1..]);
        }
      }
    }
  }

  /** Below a value that is no map, or a barren one, there is nothing to look up. */
  lemma NothingBelow(v: Value, segs: seq<string>)
    requires segs != [] && DotFree(segs[0])
    ensures !v.Map? || Barren(v) ==> CellOf(Found(v, segs)) == NOTHING
  {
    if v.Map? && Barren(v) && exists k :: k in v.entries && Lower(k) == segs[0] {
      forall k | k in v.entries && Lower(k) == segs[0]
        ensures v.entries[k] == Null
      {
        LowerDotFree(k);
      }
    }
  }

  /** A key with a dot is never part of any path a query can take. */
  lemma DottedKeyIsUnreachable(start: Tables, t: Tables, prefix: string, done: Value, key: string, value: Value)
    requires Filled(start, t, prefix, done) && DistinctFrom(done, key) && !DotFree(key)
    ensures Filled(start, t, prefix, With(done, key, value))
  {
    forall q | Below(prefix, q)
      ensures Found(With(done, key, value), Rest(prefix, q)) == Found(done, Rest(prefix, q))
    {
      SegmentsAreDotFree(q);
      assert Rest(prefix, q)[0] in Split(q);
      LowerDotFree(key);
      FoundWithKey(done, key, value, Rest(prefix, q));
    }
  }

  predicate DotInFront(path: string) {
    path != "" && path[0] == '.'
  }

  ghost predicate SameDotted(before: Tables, after: Tables) {
    forall q :: DotInFront(q) ==> CellIn(after, q) == CellIn(before, q)
  }

  lemma DotStaysInside(prefix: string, key: string)
    requires DotFree(key)
    ensures DotInFront(JoinPath(prefix, key)) <==> DotInFront(prefix)
    ensures DotInFront(Lower(JoinPath(prefix, key))) <==> DotInFront(JoinPath(prefix, key))
  {
    var path := JoinPath(prefix, key);
    if path != "" {
      assert Lower(path)[0] == LowerChar(path[0]);
      if prefix == "" {
        assert key[0] in key;
      }
    }
  }

  /** A new path, recorded over nothing, and no other path touched. */
  ghost predicate OnlyAdded(before: Tables, after: Tables, path: string, value: Value) {
    && (CellIn(before, path) == NOTHING ==> Added(before, after, path, value))
    && (value == Null ==> after == before)
    && (forall q :: q != path ==> CellIn(after, q) == CellIn(before, q))
  }

  /** What recording the keys in `done` of a map below a prefix has done to the tables. Below it
      they hold exactly what a descent finds, unless it is the root and holds a nameless map; a
      map with nothing to look up leaves them alone; and no path with a dot in front is ever
      recorded unless the prefix has one. */
  ghost predicate Recorded(before: Tables, after: Tables, prefix: string, m: Value, done: Value) {
    && (Barren(m) ==> after == before)
    && (!Barren(m) && !(prefix == "" && NamelessRoot(m)) && EmptyBelow(before, prefix)
        ==> Filled(before, after, prefix, done))
    && (!DotInFront(prefix) ==> SameDotted(before, after))
  }

  lemma EntryIsRecorded(start: Tables, t: Tables, own: Tables, after: Tables, prefix: string, m: Value, done: Value,
                        key: string)
    requires m.Map? && key in m.entries && DistinctFrom(done, key) && DotFree(key)
    requires Recorded(start, t, prefix, m, done)
    requires var path, value := JoinPath(prefix, key), m.entries[key];
             && OnlyAdded(t, own, Lower(path), value)
             && if value.Map? then Recorded(own, after, path, value, value) else after == own
    ensures Recorded(start, after, prefix, m, With(done, key, m.entries[key]))
  {
    var path, value := JoinPath(prefix, key), m.entries[key];
    DotStaysInside(prefix, key);
    if !Barren(m) && !(prefix == "" && NamelessRoot(m)) && EmptyBelow(start, prefix) {
      KeyIsFree(start, t, prefix, done, key);
      if path != "" {
        KeyLeavesTheRestFree(t, own, path, value);
      }
      KeyIsFilled(start, t, own, after, prefix, done, key, value);
    }
  }

  lemma DottedEntryIsSkipped(start: Tables, t: Tables, prefix: string, m: Value, done: Value, key: string)
    requires m.Map? && key in m.entries && DistinctFrom(done, key) && !DotFree(key)
    requires Recorded(start, t, prefix, m, done)
    ensures Recorded(start, t, prefix, m, With(done, key, m.entries[key]))
  {
    if !Barren(m) && !(prefix == "" && NamelessRoot(m)) && EmptyBelow(start, prefix) {
      DottedKeyIsUnreachable(start, t, prefix, done, key, m.entries[key]);
    }
  }

  class LookupIndex {
    var scalars: map<string, string>
    var slices: map<string, seq<string>>

    constructor ()
      ensures Snapshot() == Tables(map[], map[])
    {
      scalars, slices := map[], map[];
    }

    function Snapshot(): Tables
      reads this
    {
      Tables(scalars, slices)
    }

    /** Records one path, lowered. */
    method Add(path: string, value: Value)
      modifies this
      ensures OnlyAdded(old(Snapshot()), Snapshot(), Lower(path), value)
    {
      if value == Null {
        return;
      }
      var key := Lower(path);
      scalars := scalars[key := Shown(value)];
      if value.List? {
        slices := slices[key := value.items];
      }
    }

    /** Records a map below a prefix, key by key in any order. */
    method AddMap(prefix: string, m: Value)
      requires m.Map? && NoCollision(m)
      modifies this
      ensures Recorded(old(Snapshot()), Snapshot(), prefix, m, m)
      decreases m
    {
      var keys := m.entries.Keys;
      ghost var start, done := Snapshot(), m.(entries := map[]);
      while keys != {}
        invariant keys <= m.entries.Keys
        invariant done == m.(entries := map k | k in m.entries && k !in keys :: m.entries[k])
        invariant Recorded(start, Snapshot(), prefix, m, done)
        decreases |keys|
      {
        var key :| key in keys;
        ghost var before := Snapshot();
        var value := m.entries[key];
        assert DistinctFrom(done, key);
        if DotFree(key) {
          var path := JoinPath(prefix, key);
          Add(path, value);
          ghost var own := Snapshot();
          if value.Map? {
            AddMap(path, value);
          }
          EntryIsRecorded(start, before, own, Snapshot(), prefix, m, done, key);
        } else {
          DottedEntryIsSkipped(start, before, prefix, m, done, key);
        }
        keys := keys - {key};
        done := With(done, key, value);
      }
      assert done == m;
    }
  }

  /** The index of a locale, none when two of its keys differ only in case. Unless the root
      holds a nameless map, the tables answer every path as the descent does. */
  method BuildLookupIndex(data: Value) returns (index: LookupIndex?)
    requires data.Map?
    ensures index == null <==> !NoCollision(data)
    ensures index != null ==> fresh(index)
    ensures index != null && !NamelessRoot(data) ==> Indexes(index.Snapshot(), data)
    ensures index != null && NamelessRoot(data) ==> LosesNameless(index.Snapshot(), data)
  {
    var collides := HasCaseCollidingKeys(data);
    if collides {
      return null;
    }
    index := new LookupIndex();
    index.AddMap("", data);
    if Barren(data) {
      forall q
        ensures CellIn(index.Snapshot(), q) == CellOf(Found(data, Split(q)))
      {
        SegmentsAreDotFree(q);
        assert Split(q)[0] in Split(q);
        NothingBelow(data, Split(q));
      }
    }
    if NamelessRoot(data) {
      forall k | k in data.entries[""].entries && DotFree(k)
        ensures CellIn(index.Snapshot(), Lower("." + k)) == NOTHING
        ensures Found(data, Split(Lower("." + k))) == Some(data.entries[""].entries[k])
      {
        NamelessIsFound(data, k);
      }
    }
  }

  /** Every path has the cell of what a descent finds there. */
  ghost predicate Indexes(t: Tables, data: Value) {
    forall q :: CellIn(t, q) == CellOf(Found(data, Split(q)))
  }

  /** Everything right below the nameless map is found by a descent and not in the tables. */
  ghost predicate LosesNameless(t: Tables, data: Value)
    requires NamelessRoot(data)
  {
    forall k :: k in data.entries[""].entries && DotFree(k) ==>
      CellIn(t, Lower("." + k)) == NOTHING && Found(data, Split(Lower("." + k))) == Some(data.entries[""].entries[k])
  }

  lemma NamelessIsFound(data: Value, k: string)
    requires NamelessRoot(data) && NoCollision(data) && k in data.entries[""].entries && DotFree(k)
    ensures Found(data, Split(Lower("." + k))) == Some(data.entries[""].entries[k])
    ensures DotInFront(Lower("." + k))
  {
    LowerAppend(".", k);
    assert Lower(".") == "." && Lower("") == "";
    LowerDotFree(k);
    SplitAppend("", Lower(k));
    assert "" + "." + Lower(k) == "." + Lower(k);
    var child := data.entries[""];
    assert forall j :: j in data.entries && Lower(j) == Lower("") ==> j == "";
    assert Split(Lower("." + k)) == ["", Lower(k)];
    assert Found(data, ["", Lower(k)]) == Found(child, [Lower(k)]);
    assert Found(child, [Lower(k)]) == Some(child.entries[k]);
  }

  /** Two keys of one map that differ only in case, anywhere in the tree. */
  method HasCaseCollidingKeys(m: Value) returns (collides: bool)
    requires m.Map?
    ensures collides <==> !NoCollision(m)
    decreases m
  {
    var seen: set<string> := {};
    var keys := m.entries.Keys;
    while keys != {}
      invariant keys <= m.entries.Keys
      invariant seen == set k | k in m.entries && k !in keys :: Lower(k)
      invariant forall j, k ::
                  j in m.entries && k in m.entries && j !in keys && k !in keys && Lower(j) == Lower(k) ==> j == k
      invariant forall k :: k in m.entries && k !in keys ==> NoCollision(m.entries[k])
      decreases |keys|
    {
      var key :| key in keys;
      var lowered := Lower(key);
      if lowered in seen {
        return true;
      }
      seen := seen + {lowered};
      if m.entries[key].Map? {
        var below := HasCaseCollidingKeys(m.entries[key]);
        if below {
          return true;
        }
      }
      keys := keys - {key};
    }
    return false;
  }

  // The two ways of answering.

  function StringOf(v: Option<Value>): string {
    if v == None then "" else Shown(v.value)
  }

  function WordsAt(v: Option<Value>): Words {
    if v == None then Missing else ToWords(v.value)
  }

  /** The string is what the value prints as: a text as it is, and nothing for a missing value or
      a null. */
  ghost predicate PrintsAs(v: Option<Value>, s: string) {
    match v
    case None => s == ""
    case Some(Null) => s == ""
    case Some(Text(text)) => s == text
    case Some(Scalar(shown)) => s == shown
    case Some(List(_, shown)) => s == shown
    case Some(Map(_, shown)) => s == shown
  }

  /** The words are a list's items, or those of what the value prints as. */
  ghost predicate SplitsInto(v: Option<Value>, words: Words) {
    match v
    case None => words == Missing
    case Some(Null) => words == Missing
    case Some(Text(text)) => words == WordsOf(text)
    case Some(Scalar(shown)) => words == WordsOf(shown)
    case Some(List(items, _)) => words == Items(items)
    case Some(Map(_, shown)) => words == WordsOf(shown)
  }

  /** A locale whose index is meant to replace its walk. */
  ghost predicate Indexable(data: Value) {
    data.Map? && NoCollision(data) && AsciiKeys(data) && !NamelessRoot(data)
  }

  class Translator {
    const data: Value
    const index: LookupIndex?

    constructor (data: Value)
      requires data.Map?
      ensures this.data == data && Built()
    {
      var built := BuildLookupIndex(data);
      this.data := data;
      index := built;
    }

    ghost predicate Built()
      reads index
    {
      && data.Map?
      && (index == null <==> !NoCollision(data))
      && (index != null && !NamelessRoot(data) ==> Indexes(index.Snapshot(), data))
    }

    /** The string a query resolves to, by the index if there is one and by the walk if not:
        on every indexable locale and for every query that both ways take alike, misses
        included, it is the walk's. */
    method LookupString(key: string) returns (s: string)
      requires Built()
      ensures index == null ==>
                exists end :: Descends(data, FoldAll(Split(key)), end) && s == StringOf(end) && PrintsAs(end, s)
      ensures index != null && !NamelessRoot(data) ==> s == StringOf(Found(data, Split(Lower(key))))
      ensures Indexable(data) && TakenAlike(key) ==> s == StringOf(Found(data, FoldAll(Split(key))))
      ensures Indexable(data) && TakenAlike(key) ==> PrintsAs(Found(data, FoldAll(Split(key))), s)
    {
      if index == null {
        var value := Lookup(data, key);
        return StringOf(value);
      }
      SplitLower(key);
      if Indexable(data) && TakenAlike(key) {
        TakenAlikeAgrees(key, data);
      }
      return if Lower(key) in index.scalars then index.scalars[Lower(key)] else "";
    }

    method LookupStringSlice(key: string) returns (words: Words)
      requires Built()
      ensures index == null ==>
                exists end ::
                  Descends(data, FoldAll(Split(key)), end) && words == WordsAt(end) && SplitsInto(end, words)
      ensures index != null && !NamelessRoot(data) ==> words == WordsAt(Found(data, Split(Lower(key))))
      ensures Indexable(data) && TakenAlike(key) ==> words == WordsAt(Found(data, FoldAll(Split(key))))
      ensures Indexable(data) && TakenAlike(key) ==> SplitsInto(Found(data, FoldAll(Split(key))), words)
    {
      if index == null {
        var value := Lookup(data, key);
        return WordsAt(value);
      }
      SplitLower(key);
      if Indexable(data) && TakenAlike(key) {
        TakenAlikeAgrees(key, data);
      }
      var lowered := Lower(key);
      assert !NamelessRoot(data) ==> CellIn(index.Snapshot(), lowered) == CellOf(Found(data, Split(lowered)));
      if lowered in index.slices {
        return Items(index.slices[lowered]);
      }
      if lowered in index.scalars {
        return WordsOf(index.scalars[lowered]);
      }
      return Missing;
    }
  }

  /** The table and the walk agree on a query, for every indexable locale. */
  ghost predicate AgreeOn(key: string) {
    forall v: Value :: Indexable(v) ==> CellOf(Found(v, Split(Lower(key)))) == CellOf(Found(v, FoldAll(Split(key))))
  }

  /** A segment outside ASCII, which no key of an indexable locale matches. */
  ghost predicate HasForeign(segs: seq<string>) {
    exists seg :: seg in segs && !Ascii(seg)
  }

  lemma {:induction false} ForeignFindsNothing(v: Value, segs: seq<string>)
    requires AsciiKeys(v) && HasForeign(segs)
    ensures Found(v, segs) == None
    decreases |segs|
  {
    var seg :| seg in segs && !Ascii(seg);
    if v.Map? && exists k :: k in v.entries && Lower(k) == segs[0] {
      forall k | k in v.entries && Lower(k) == segs[0]
        ensures Found(v.entries[k], segs[1..]) == None
      {
        FoldIsLowerExactly(k);
        assert Ascii(segs[0]) && seg in segs[1..];
        ForeignFindsNothing(v.entries[k], segs[1..]);
      }
    }
  }

  /** A nameless root key is no map with something to look up, so nothing is found below it. */
  lemma NothingNameless(v: Value, segs: seq<string>)
    requires Indexable(v) && |segs| > 1 && segs[0] == "" && DotFree(segs[1])
    ensures CellOf(Found(v, segs)) == NOTHING
  {
    if k :| k in v.entries && Lower(k) == segs[0] {
      assert |Lower(k)| == |k|;
      NothingBelow(v.entries[k], segs[1..]);
    }
  }

  /** A locale with one path. */
  function OnePath(segs: seq<string>): Value {
    if segs == [] then Text("x") else Map(map[segs[0] := OnePath(segs[1..])], "")
  }

  predicate Lowered(seg: string) {
    Ascii(seg) && Lower(seg) == seg
  }

  lemma {:induction false} OnePathFinds(segs: seq<string>, query: seq<string>)
    requires (forall i :: 0 <= i < |segs| ==> Lowered(segs[i])) && |query| == |segs|
    ensures NoCollision(OnePath(segs)) && AsciiKeys(OnePath(segs))
    ensures Found(OnePath(segs), query) == if query == segs then Some(Text("x")) else None
    decreases |segs|
  {
    if segs != [] {
      var v := OnePath(segs);
      assert segs[0] in v.entries && v.entries[segs[0]] == OnePath(segs[1..]) && Lowered(segs[0]);
      OnePathFinds(segs[1..], query[1..]);
      assert query == [query[0]] + query[1..] && segs == [segs[0]] + segs[1..];
    }
  }

  /** A path of lowered ASCII names is answered, and no other path as long: so two queries that
      differ are told apart when one of them could be such a path. */
  lemma OnePathTellsApart(segs: seq<string>, other: seq<string>)
    requires (forall i :: 0 <= i < |segs| ==> Lowered(segs[i])) && |other| == |segs| > 0 && other != segs
    requires |segs| > 1 ==> segs[0] != ""
    ensures exists v: Value :: Indexable(v) && CellOf(Found(v, segs)) != CellOf(Found(v, other))
  {
    var v := OnePath(segs);
    OnePathFinds(segs, segs);
    OnePathFinds(segs, other);
    assert "" in v.entries ==> |segs| == 1 && v.entries[""] == OnePath(segs[1..]) && segs[1..] == [];
    assert Indexable(v);
  }

  /** The queries that both ways of answering take alike. */
  ghost predicate TakenAlike(key: string) {
    var lowered, folded := LowerAll(Split(key)), FoldAll(Split(key));
    lowered == folded || (HasForeign(lowered) && HasForeign(folded)) || (|lowered| > 1 && Split(key)[0] == "")
  }

  lemma NoForeignIsLowered(segs: seq<string>)
    ensures !HasForeign(LowerAll(segs)) ==> forall i :: 0 <= i < |segs| ==> Lowered(LowerAll(segs)[i])
    ensures !HasForeign(FoldAll(segs)) ==> forall i :: 0 <= i < |segs| ==> Lowered(FoldAll(segs)[i])
  {
    forall i | 0 <= i < |segs|
      ensures !HasForeign(LowerAll(segs)) ==> Lowered(LowerAll(segs)[i])
      ensures !HasForeign(FoldAll(segs)) ==> Lowered(FoldAll(segs)[i])
    {
      LoweredStays(segs[i]);
      assert LowerAll(segs)[i] in LowerAll(segs) && FoldAll(segs)[i] in FoldAll(segs);
    }
  }

  lemma TakenAlikeAgrees(key: string, v: Value)
    requires TakenAlike(key) && Indexable(v)
    ensures CellOf(Found(v, LowerAll(Split(key)))) == CellOf(Found(v, FoldAll(Split(key))))
  {
    var segs := Split(key);
    var lowered, folded := LowerAll(segs), FoldAll(segs);
    if HasForeign(lowered) && HasForeign(folded) {
      ForeignFindsNothing(v, lowered);
      ForeignFindsNothing(v, folded);
    } else if |lowered| > 1 && segs[0] == "" {
      SegmentsAreDotFree(key);
      assert segs[1] in segs;
      LowerDotFree(segs[1]);
      FoldDotFree(segs[1]);
      NothingNameless(v, lowered);
      NothingNameless(v, folded);
    }
  }

  /** Exactly which queries the index answers as the walk does on every indexable locale: those
      whose segments lower as they fold, those with a segment no ASCII key can match either way,
      and those below a nameless root key, where there is nothing to look up. */
  lemma AgreementExactly(key: string)
    ensures AgreeOn(key) <==> TakenAlike(key)
  {
    var segs := Split(key);
    var lowered, folded := LowerAll(segs), FoldAll(segs);
    SplitLower(key);
    if TakenAlike(key) {
      forall v: Value | Indexable(v)
        ensures CellOf(Found(v, lowered)) == CellOf(Found(v, folded))
      {
        TakenAlikeAgrees(key, v);
      }
    } else {
      NoForeignIsLowered(segs);
      assert |segs[0]| == |lowered[0]| == |folded[0]|;
      if HasForeign(lowered) {
        OnePathTellsApart(folded, lowered);
      } else {
        OnePathTellsApart(lowered, folded);
      }
    }
  }

  /** In particular every query with neither a long s nor a dotted capital I is. */
  lemma CaseSafeAgrees(key: string)
    requires CaseSafe(key)
    ensures TakenAlike(key)
  {
    var segs := Split(key);
    SegmentsAreCaseSafe(key);
    forall i | 0 <= i < |segs|
      ensures Ascii(LowerAll(segs)[i]) <==> Ascii(FoldAll(segs)[i])
      ensures Ascii(LowerAll(segs)[i]) ==> LowerAll(segs)[i] == FoldAll(segs)[i]
    {
      assert segs[i] in segs;
      FoldIsLowerExactly(segs[i]);
    }
    if lowered :| lowered in LowerAll(segs) && !Ascii(lowered) {
      var i :| 0 <= i < |segs| && LowerAll(segs)[i] == lowered;
      assert FoldAll(segs)[i] in FoldAll(segs);
    } else {
      forall i | 0 <= i < |segs|
        ensures LowerAll(segs)[i] == FoldAll(segs)[i]
      {
        assert LowerAll(segs)[i] in LowerAll(segs);
      }
    }
  }

  lemma {:induction false} SegmentsAreCaseSafe(key: string)
    requires CaseSafe(key)
    ensures forall seg :: seg in Split(key) ==> CaseSafe(seg)
  {
    if key != "" {
      var rest := Split(key[1..]);
      SegmentsAreCaseSafe(key[1..]);
      assert rest[0] in rest && CaseSafe([key[0]] + rest[0]) by {
        assert key[0] in key;
      }
    }
  }
}

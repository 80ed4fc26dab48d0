/** The canonical form a save request is fingerprinted in, so that a repeated request can be recognised. */
module ClaimFingerprint {
  import opened Prelude

  /**
   * A JavaScript value. `Instant` is a `Date`, known by its ISO text; a `Record` lists its own
   * properties in insertion order.
   */
  datatype Value =
    | Undefined | Null | Bool(b: bool) | Number(n: int) | Text(text: string) | Instant(iso: string)
    | List(items: seq<Value>) | Record(entries: seq<Entry>)

  datatype Entry = Entry(key: string, value: Value)

  /** No object has two properties of one name. */
  predicate WellFormed(v: Value) {
    match v
    case List(items) => forall i | 0 <= i < |items| :: WellFormed(items[i])
    case Record(entries) =>
      && (forall i, j | 0 <= i < j < |entries| :: entries[i].key != entries[j].key)
      && (forall i | 0 <= i < |entries| :: WellFormed(entries[i].value))
    case _ => true
  }

  // ---- Key order -----------------------------------------------------------------------------------

  predicate Before(a: string, b: string) {
    if b == "" then false
    else if a == "" then true
    else a[0] < b[0] || (a[0] == b[0] && Before(a[1..], b[1..]))
  }

  lemma {:induction false} OrderIsTotal(a: string, b: string)
    ensures Before(a, b) || a == b || Before(b, a)
    ensures !(Before(a, b) && Before(b, a)) && !Before(a, a)
  {
    if a != "" {
      OrderIsTotal(a[1..], a[1..]);
      if b != "" {
        OrderIsTotal(a[1..], b[1..]);
        if a[0] == b[0] && a[1..] == b[1..] { assert a == [a[0]] + a[1..] && b == [b[0]] + b[1..]; }
      }
    }
  }

  lemma {:induction false} OrderIsTransitive(a: string, b: string, c: string)
    requires Before(a, b) && Before(b, c)
    ensures Before(a, c)
  {
    if a != "" && a[0] == b[0] == c[0] { OrderIsTransitive(a[1..], b[1..], c[1..]); }
  }

  function Insert(e: Entry, entries: seq<Entry>): seq<Entry> {
    if entries == [] || !Before(entries[0].key, e.key) then [e] + entries
    else [entries[0]] + Insert(e, entries[1..])
  }

  function Sort(entries: seq<Entry>): seq<Entry> {
    if entries == [] then [] else Insert(entries[0], Sort(entries[1..]))
  }

  ghost predicate Sorted(entries: seq<Entry>) {
    forall i, j :: 0 <= i < j < |entries| ==> Before(entries[i].key, entries[j].key)
  }

  predicate DistinctKeys(entries: seq<Entry>) {
    forall i, j :: 0 <= i < j < |entries| ==> entries[i].key != entries[j].key
  }

  // ---- Normal form ----------------------------------------------------------------------------------

  function NormalizeValue(v: Value): Value {
    match v
    case Instant(iso) => Text(iso)
    case List(items) => List(seq(|items|, i requires 0 <= i < |items| => NormalizeValue(items[i])))
    case Record(entries) =>
      Record(Sort(Defined(seq(|entries|, i requires 0 <= i < |entries| => Entry(entries[i].key, NormalizeValue(entries[i].value))))))
    case _ => v
  }

  /** The entries whose value is there; normalising a value neither adds nor removes `undefined`. */
  function Defined(entries: seq<Entry>): (r: seq<Entry>)
    ensures forall e :: e in r <==> e in entries && e.value != Undefined
  {
    if entries == [] then []
    else (if entries[0].value.Undefined? then [] else [entries[0]]) + Defined(entries[1..])
  }

  function NormalEntries(entries: seq<Entry>): (r: seq<Entry>)
    ensures |r| == |entries|
    ensures forall i :: 0 <= i < |r| ==> r[i] == Entry(entries[i].key, NormalizeValue(entries[i].value))
  {
    seq(|entries|, i requires 0 <= i < |entries| => Entry(entries[i].key, NormalizeValue(entries[i].value)))
  }

  lemma NormalRecord(entries: seq<Entry>)
    ensures NormalizeValue(Record(entries)) == Record(Sort(Defined(NormalEntries(entries))))
  {
  }

  lemma {:induction false} InsertKeeps(e: Entry, entries: seq<Entry>)
    requires Sorted(entries) && forall x :: x in entries ==> x.key != e.key
    ensures Sorted(Insert(e, entries)) && forall x :: x in Insert(e, entries) <==> x == e || x in entries
  {
    if entries == [] {
    } else if !Before(entries[0].key, e.key) {
      OrderIsTotal(entries[0].key, e.key);
      assert entries[0] in entries;
      forall j | 0 <= j < |entries| ensures Before(e.key, entries[j].key) {
        if j > 0 { OrderIsTransitive(e.key, entries[0].key, entries[j].key); }
      }
    } else {
      InsertKeeps(e, entries[1..]);
      var rest := Insert(e, entries[1..]);
      assert entries == [entries[0]] + entries[1..];
      forall j | 0 <= j < |rest| ensures Before(entries[0].key, rest[j].key) { assert rest[j] in rest; }
    }
  }

  lemma {:induction false} SortKeeps(entries: seq<Entry>)
    requires DistinctKeys(entries)
    ensures Sorted(Sort(entries)) && forall x :: x in Sort(entries) <==> x in entries
  {
    if entries != [] {
      SortKeeps(entries[1..]);
      assert entries == [entries[0]] + entries[1..];
      forall x | x in Sort(entries[1..]) ensures x.key != entries[0].key {
        var j :| 0 <= j < |entries[1..]| && entries[1..][j] == x;
        assert entries[j + 1] == x;
      }
      InsertKeeps(entries[0], Sort(entries[1..]));
    }
  }

  lemma {:induction false} SortedIsSorted(entries: seq<Entry>)
    requires Sorted(entries)
    ensures Sort(entries) == entries
  {
    if entries != [] {
      SortedIsSorted(entries[1..]);
      if |entries| > 1 { OrderIsTotal(entries[0].key, entries[1].key); }
      assert entries == [entries[0]] + entries[1..];
    }
  }

  /** Two ordered lists with the same entries are the same list. */
  lemma {:induction false} SameEntriesSameList(a: seq<Entry>, b: seq<Entry>)
    requires Sorted(a) && Sorted(b) && forall x :: x in a <==> x in b
    ensures a == b
  {
    if a == [] {
      assert forall i :: 0 <= i < |b| ==> b[i] in b;
    } else {
      assert a[0] in a;
      var j :| 0 <= j < |b| && b[j] == a[0];
      assert b[0] in b;
      var i :| 0 <= i < |a| && a[i] == b[0];
      OrderIsTotal(a[0].key, b[0].key);
      assert i == 0 && j == 0;
      forall x ensures x in a[1..] <==> x in b[1..] {
        OrderIsTotal(a[0].key, a[0].key);
        assert x in a[1..] <==> x in a && x != a[0] by { HeadIsOnce(a); }
        assert x in b[1..] <==> x in b && x != b[0] by { HeadIsOnce(b); }
      }
      SameEntriesSameList(a[1..], b[1..]);
      assert a == [a[0]] + a[1..] && b == [b[0]] + b[1..];
    }
  }

  lemma HeadIsOnce(a: seq<Entry>)
    requires Sorted(a) && a != []
    ensures forall x :: x in a[1..] <==> x in a && x != a[0]
  {
    OrderIsTotal(a[0].key, a[0].key);
    forall x | x in a && x != a[0] ensures x in a[1..] {
      var i :| 0 <= i < |a| && a[i] == x;
      assert a[1..][i - 1] == x;
    }
  }

  lemma {:induction false} DefinedKeeps(entries: seq<Entry>)
    requires DistinctKeys(entries)
    ensures DistinctKeys(Defined(entries))
  {
    if entries != [] {
      DefinedKeeps(entries[1..]);
      forall x | x in Defined(entries[1..]) ensures x.key != entries[0].key {
        var j :| 0 <= j < |entries[1..]| && entries[1..][j] == x;
        assert entries[j + 1] == x;
      }
    }
  }

  lemma {:induction false} AllDefined(entries: seq<Entry>)
    requires forall e :: e in entries ==> e.value != Undefined
    ensures Defined(entries) == entries
  {
    if entries != [] {
      assert entries[0] in entries && forall e :: e in entries[1..] ==> e in entries;
      AllDefined(entries[1..]);
      assert entries == [entries[0]] + entries[1..];
    }
  }

  /** The entries of a normalised object: ordered, and just the defined ones with their values normalised. */
  lemma NormalRecordIs(entries: seq<Entry>)
    requires DistinctKeys(entries)
    ensures NormalizeValue(Record(entries)).Record?
    ensures var r := NormalizeValue(Record(entries)).entries;
            Sorted(r) && forall x :: x in r <==> x in NormalEntries(entries) && x.value != Undefined
  {
    NormalRecord(entries);
    DefinedKeeps(NormalEntries(entries));
    SortKeeps(Defined(NormalEntries(entries)));
  }

  // ---- Canonicity --------------------------------------------------------------------------------------

  function Plain(v: Value): Value {
    if v.Instant? then Text(v.iso) else v
  }

  /** Every defined property of `a` has its equal in `b`. */
  predicate Covered(a: seq<Entry>, b: seq<Entry>, i: nat)
    requires i < |a|
    decreases a, 0
  {
    !a[i].value.Undefined? ==>
      exists j | 0 <= j < |b| :: b[j].key == a[i].key && !b[j].value.Undefined? && Same(a[i].value, b[j].value)
  }

  predicate CoveredBack(a: seq<Entry>, b: seq<Entry>, j: nat)
    requires j < |b|
    decreases a, 0
  {
    !b[j].value.Undefined? ==>
      exists i | 0 <= i < |a| :: b[j].key == a[i].key && !a[i].value.Undefined? && Same(a[i].value, b[j].value)
  }

  /** Equal up to the order of properties, properties set to `undefined`, and dates against their ISO text. */
  predicate Same(v: Value, w: Value)
    decreases v
  {
    match (v, w)
    case (List(a), List(b)) => |a| == |b| && forall i | 0 <= i < |a| :: Same(a[i], b[i])
    case (Record(a), Record(b)) =>
      (forall i | 0 <= i < |a| :: Covered(a, b, i)) && (forall j | 0 <= j < |b| :: CoveredBack(a, b, j))
    case _ => Plain(v) == Plain(w)
  }

  /** What `Same` says of each kind of value: a date is its text, a list its items in order, a record its present fields. */
  lemma SamenessIs(v: Value, w: Value)
    ensures v.List? && w.List? ==>
              (Same(v, w) <==> |v.items| == |w.items| && forall i :: 0 <= i < |v.items| ==> Same(v.items[i], w.items[i]))
    ensures v.Record? && w.Record? ==>
              (Same(v, w) <==> && (forall e :: e in v.entries && e.value != Undefined ==> Matched(e, w.entries, true))
                               && (forall e :: e in w.entries && e.value != Undefined ==> Matched(e, v.entries, false)))
    ensures !(v.List? && w.List?) && !(v.Record? && w.Record?) ==>
              (Same(v, w) <==> v == w || (v.Instant? && w == Text(v.iso)) || (w.Instant? && v == Text(w.iso)))
  {
    if v.Record? && w.Record? { RecordSamenessIs(v.entries, w.entries); }
  }

  lemma RecordSamenessIs(a: seq<Entry>, b: seq<Entry>)
    ensures Same(Record(a), Record(b)) <==>
              && (forall e :: e in a && e.value != Undefined ==> Matched(e, b, true))
              && (forall e :: e in b && e.value != Undefined ==> Matched(e, a, false))
  {
    hide Same, Covered, CoveredBack, Matched;
    forall i | 0 <= i < |a| ensures Covered(a, b, i) <==> a[i].value == Undefined || Matched(a[i], b, true) { CoveredIs(a, b, i); }
    forall j | 0 <= j < |b| ensures CoveredBack(a, b, j) <==> b[j].value == Undefined || Matched(b[j], a, false) { CoveredBackIs(a, b, j); }
    if (forall e :: e in a && e.value != Undefined ==> Matched(e, b, true)) && (forall e :: e in b && e.value != Undefined ==> Matched(e, a, false)) {
      forall i | 0 <= i < |a| ensures Covered(a, b, i) { assert a[i] in a; }
      forall j | 0 <= j < |b| ensures CoveredBack(a, b, j) { assert b[j] in b; }
      AllCovered(a, b);
    }
    if Same(Record(a), Record(b)) {
      SameCovers(a, b);
      forall e | e in a && e.value != Undefined ensures Matched(e, b, true) { var i :| 0 <= i < |a| && a[i] == e; }
      forall e | e in b && e.value != Undefined ensures Matched(e, a, false) { var j :| 0 <= j < |b| && b[j] == e; }
    }
  }

  lemma AllCovered(a: seq<Entry>, b: seq<Entry>)
    requires (forall i | 0 <= i < |a| :: Covered(a, b, i)) && (forall j | 0 <= j < |b| :: CoveredBack(a, b, j))
    ensures Same(Record(a), Record(b))
  {
  }

  lemma SameCovers(a: seq<Entry>, b: seq<Entry>)
    requires Same(Record(a), Record(b))
    ensures (forall i | 0 <= i < |a| :: Covered(a, b, i)) && (forall j | 0 <= j < |b| :: CoveredBack(a, b, j))
  {
    forall i | 0 <= i < |a| ensures Covered(a, b, i) { }
    forall j | 0 <= j < |b| ensures CoveredBack(a, b, j) { }
  }

  lemma CoveredIs(a: seq<Entry>, b: seq<Entry>, i: nat)
    requires i < |a|
    ensures Covered(a, b, i) <==> a[i].value == Undefined || Matched(a[i], b, true)
  {
    hide Same;
    if Matched(a[i], b, true) {
      var o :| o in b && o.value != Undefined && o.key == a[i].key && Same(a[i].value, o.value);
      var j :| 0 <= j < |b| && b[j] == o;
    }
  }

  lemma CoveredBackIs(a: seq<Entry>, b: seq<Entry>, j: nat)
    requires j < |b|
    ensures CoveredBack(a, b, j) <==> b[j].value == Undefined || Matched(b[j], a, false)
  {
    hide Same;
    if Matched(b[j], a, false) {
      var o :| o in a && o.value != Undefined && o.key == b[j].key && Same(o.value, b[j].value);
      var i :| 0 <= i < |a| && a[i] == o;
    }
  }

  /** Some present field of the other record has this one's name and the same value. */
  ghost predicate Matched(e: Entry, others: seq<Entry>, forward: bool) {
    exists o :: o in others && o.value != Undefined && o.key == e.key && if forward then Same(e.value, o.value) else Same(o.value, e.value)
  }

  lemma RecordsAgree(a: seq<Entry>, b: seq<Entry>)
    requires DistinctKeys(a) && DistinctKeys(b)
    requires forall i, j :: 0 <= i < |a| && 0 <= j < |b| ==>
               (NormalizeValue(a[i].value) == NormalizeValue(b[j].value) <==> Same(a[i].value, b[j].value))
    ensures NormalizeValue(Record(a)) == NormalizeValue(Record(b)) <==> Same(Record(a), Record(b))
  {
    if NormalizeValue(Record(a)) == NormalizeValue(Record(b)) {
      forall i | 0 <= i < |a| ensures Covered(a, b, i) { EqualMeansCovered(a, b, i); }
      forall j | 0 <= j < |b| ensures CoveredBack(a, b, j) { EqualMeansCoveredBack(a, b, j); }
    }
    if Same(Record(a), Record(b)) { SameMeansEqual(a, b); }
  }

  lemma SameMeansEqual(a: seq<Entry>, b: seq<Entry>)
    requires DistinctKeys(a) && DistinctKeys(b) && Same(Record(a), Record(b))
    requires forall i, j :: 0 <= i < |a| && 0 <= j < |b| ==>
               (NormalizeValue(a[i].value) == NormalizeValue(b[j].value) <==> Same(a[i].value, b[j].value))
    ensures NormalizeValue(Record(a)) == NormalizeValue(Record(b))
  {
    NormalRecordIs(a);
    NormalRecordIs(b);
    forall i | 0 <= i < |a| ensures Covered(a, b, i) { }
    forall j | 0 <= j < |b| ensures CoveredBack(a, b, j) { }
    hide Sorted, DistinctKeys, Same, NormalizeValue, Covered, CoveredBack;
    forall x: Entry | x.value != Undefined ensures x in NormalEntries(a) <==> x in NormalEntries(b) { Carried(a, b, x); }
    SameEntriesSameList(NormalizeValue(Record(a)).entries, NormalizeValue(Record(b)).entries);
  }

  lemma Carried(a: seq<Entry>, b: seq<Entry>, x: Entry)
    requires (forall i | 0 <= i < |a| :: Covered(a, b, i)) && (forall j | 0 <= j < |b| :: CoveredBack(a, b, j))
    requires forall i, j :: 0 <= i < |a| && 0 <= j < |b| ==>
               (NormalizeValue(a[i].value) == NormalizeValue(b[j].value) <==> Same(a[i].value, b[j].value))
    requires x.value != Undefined
    ensures x in NormalEntries(a) <==> x in NormalEntries(b)
  {
    hide Same, NormalizeValue;
    NormalOfUndefined();
    if x in NormalEntries(a) {
      var i :| 0 <= i < |a| && NormalEntries(a)[i] == x;
      assert Covered(a, b, i);
      var j :| 0 <= j < |b| && b[j].key == a[i].key && !b[j].value.Undefined? && Same(a[i].value, b[j].value);
      assert NormalEntries(b)[j] == x;
    }
    if x in NormalEntries(b) {
      var j :| 0 <= j < |b| && NormalEntries(b)[j] == x;
      assert CoveredBack(a, b, j);
      var i :| 0 <= i < |a| && b[j].key == a[i].key && !a[i].value.Undefined? && Same(a[i].value, b[j].value);
      assert NormalEntries(a)[i] == x;
    }
  }

  lemma NormalOfUndefined()
    ensures NormalizeValue(Undefined) == Undefined
  {
  }

  lemma EqualMeansCovered(a: seq<Entry>, b: seq<Entry>, i: nat)
    requires DistinctKeys(a) && DistinctKeys(b) && i < |a|
    requires NormalizeValue(Record(a)) == NormalizeValue(Record(b))
    requires forall j :: 0 <= j < |b| ==> (NormalizeValue(a[i].value) == NormalizeValue(b[j].value) <==> Same(a[i].value, b[j].value))
    ensures Covered(a, b, i)
  {
    NormalRecordIs(a);
    NormalRecordIs(b);
    if !a[i].value.Undefined? {
      var x := NormalEntries(a)[i];
      assert x in NormalizeValue(Record(b)).entries;
      var j :| 0 <= j < |b| && NormalEntries(b)[j] == x;
      assert b[j].key == a[i].key && Same(a[i].value, b[j].value);
    }
  }

  lemma EqualMeansCoveredBack(a: seq<Entry>, b: seq<Entry>, j: nat)
    requires DistinctKeys(a) && DistinctKeys(b) && j < |b|
    requires NormalizeValue(Record(a)) == NormalizeValue(Record(b))
    requires forall i :: 0 <= i < |a| ==> (NormalizeValue(a[i].value) == NormalizeValue(b[j].value) <==> Same(a[i].value, b[j].value))
    ensures CoveredBack(a, b, j)
  {
    NormalRecordIs(a);
    NormalRecordIs(b);
    if !b[j].value.Undefined? {
      var x := NormalEntries(b)[j];
      assert x in NormalizeValue(Record(a)).entries;
      var i :| 0 <= i < |a| && NormalEntries(a)[i] == x;
      assert b[j].key == a[i].key && Same(a[i].value, b[j].value);
    }
  }

  /** Two values have one normal form exactly when they differ in no way that matters. */
  lemma {:induction false} NormalFormsDecide(v: Value, w: Value)
    requires WellFormed(v) && WellFormed(w)
    ensures NormalizeValue(v) == NormalizeValue(w) <==> Same(v, w)
    decreases v
  {
    if v.List? && w.List? {
      forall i | 0 <= i < |v.items| && i < |w.items|
        ensures NormalizeValue(v.items[i]) == NormalizeValue(w.items[i]) <==> Same(v.items[i], w.items[i])
      {
        NormalFormsDecide(v.items[i], w.items[i]);
      }
      ListsAgree(v.items, w.items);
    } else if v.Record? && w.Record? {
      var a, b := v.entries, w.entries;
      forall i, j | 0 <= i < |a| && 0 <= j < |b|
        ensures NormalizeValue(a[i].value) == NormalizeValue(b[j].value) <==> Same(a[i].value, b[j].value)
      {
        NormalFormsDecide(a[i].value, b[j].value);
      }
      RecordsAgree(a, b);
    }
  }

  lemma ListsAgree(a: seq<Value>, b: seq<Value>)
    requires forall i :: 0 <= i < |a| && i < |b| ==> (NormalizeValue(a[i]) == NormalizeValue(b[i]) <==> Same(a[i], b[i]))
    ensures NormalizeValue(List(a)) == NormalizeValue(List(b)) <==> Same(List(a), List(b))
  {
    var r, s := NormalizeValue(List(a)).items, NormalizeValue(List(b)).items;
    if r == s {
      forall i | 0 <= i < |a| ensures Same(a[i], b[i]) { assert r[i] == s[i]; }
    }
    if Same(List(a), List(b)) {
      forall i | 0 <= i < |a| ensures r[i] == s[i] { assert Same(a[i], b[i]); }
      assert r == s;
    }
  }

  lemma {:induction false} NormalFormIsWellFormed(v: Value)
    requires WellFormed(v)
    ensures WellFormed(NormalizeValue(v)) && NormalizeValue(NormalizeValue(v)) == NormalizeValue(v)
    decreases v
  {
    match v
    case List(items) =>
      forall i | 0 <= i < |items|
        ensures WellFormed(NormalizeValue(items[i])) && NormalizeValue(NormalizeValue(items[i])) == NormalizeValue(items[i])
      {
        NormalFormIsWellFormed(items[i]);
      }
      assert NormalizeValue(NormalizeValue(v)).items == NormalizeValue(v).items;
    case Record(entries) =>
      NormalRecordIs(entries);
      var r := NormalizeValue(v).entries;
      forall i | 0 <= i < |entries|
        ensures WellFormed(NormalizeValue(entries[i].value)) && NormalizeValue(NormalizeValue(entries[i].value)) == NormalizeValue(entries[i].value)
      {
        NormalFormIsWellFormed(entries[i].value);
      }
      forall k | 0 <= k < |r| ensures WellFormed(r[k].value) && NormalizeValue(r[k].value) == r[k].value && r[k].value != Undefined {
        assert r[k] in r;
        var i :| 0 <= i < |entries| && NormalEntries(entries)[i] == r[k];
      }
      SettledRecord(r);
    case _ =>
  }

  lemma SettledRecord(r: seq<Entry>)
    requires Sorted(r)
    requires forall k :: 0 <= k < |r| ==> WellFormed(r[k].value) && NormalizeValue(r[k].value) == r[k].value && r[k].value != Undefined
    ensures WellFormed(Record(r)) && NormalizeValue(Record(r)) == Record(r)
  {
    forall i, j | 0 <= i < j < |r| ensures r[i].key != r[j].key { OrderIsTotal(r[i].key, r[j].key); }
    NormalRecord(r);
    assert NormalEntries(r) == r;
    AllDefined(r);
    SortedIsSorted(r);
  }

  /** Normalising again changes nothing, and a value is the same as its normal form. */
  lemma NormalizingIsIdempotent(v: Value)
    requires WellFormed(v)
    ensures NormalizeValue(NormalizeValue(v)) == NormalizeValue(v) && Same(v, NormalizeValue(v))
  {
    NormalFormIsWellFormed(v);
    NormalFormsDecide(v, NormalizeValue(v));
  }

  // ---- The fingerprint ------------------------------------------------------------------------------------

  const IgnoredFields := {"imageUploadId", "imageCreationContextToken", "createdBy", "updatedBy"}

  /** The fields that tell one save from another: not the upload's own, not an emptied URL, not a password. */
  predicate Counts(e: Entry) {
    && e.key !in IgnoredFields && e.key != "password"
    && !(e.key == "imageUrl" && (e.value == Null || e.value == Text("")))
  }

  function Counting(entries: seq<Entry>): (r: seq<Entry>)
    ensures forall e :: e in r <==> e in entries && Counts(e)
  {
    if entries == [] then [] else (if Counts(entries[0]) then [entries[0]] else []) + Counting(entries[1..])
  }

  /** Text as JSON keeps it: a gap in a list comes back as `null`. */
  function Json(v: Value): Value {
    match v
    case List(items) =>
      List(seq(|items|, i requires 0 <= i < |items| => if items[i].Undefined? then Null else Json(items[i])))
    case Record(entries) => Record(seq(|entries|, i requires 0 <= i < |entries| => Entry(entries[i].key, Json(entries[i].value))))
    case _ => v
  }

  /** The hash is taken to be injective, so a fingerprint is what was hashed. */
  datatype Fingerprint = Fingerprint(actor: string, purpose: string, operation: string, target: Option<string>, fields: Value)

  function ImageClaimFingerprint(actor: string, purpose: string, operation: string, target: Option<string>, fields: seq<Entry>)
    : Fingerprint
  {
    var normalized := NormalizeValue(Record(fields));
    Fingerprint(actor, purpose, operation, target, Json(Record(Counting(normalized.entries))))
  }

  /** The request's own fields that count. */
  function OwnFields(fields: seq<Entry>): seq<Entry> {
    if fields == [] then []
    else (if Counts(Entry(fields[0].key, NormalizeValue(fields[0].value))) then [fields[0]] else []) + OwnFields(fields[1..])
  }

  lemma {:induction false} OwnFieldsAre(fields: seq<Entry>)
    requires DistinctKeys(fields)
    ensures DistinctKeys(OwnFields(fields))
    ensures forall e :: e in OwnFields(fields) <==> e in fields && Counts(Entry(e.key, NormalizeValue(e.value)))
  {
    if fields != [] {
      OwnFieldsAre(fields[1..]);
      assert fields == [fields[0]] + fields[1..];
      forall x | x in OwnFields(fields[1..]) ensures x.key != fields[0].key {
        var j :| 0 <= j < |fields[1..]| && fields[1..][j] == x;
        assert fields[j + 1] == x;
      }
    }
  }

  lemma {:induction false} CountingKeepsOrder(entries: seq<Entry>)
    requires Sorted(entries)
    ensures Sorted(Counting(entries))
  {
    hide Before, Counts;
    if entries != [] {
      CountingKeepsOrder(entries[1..]);
      forall x | x in Counting(entries[1..]) ensures Before(entries[0].key, x.key) {
        var j :| 0 <= j < |entries[1..]| && entries[1..][j] == x;
        assert entries[j + 1] == x;
      }
      assert forall k :: 0 <= k < |Counting(entries[1..])| ==> Counting(entries[1..])[k] in Counting(entries[1..]);
    }
  }

  /** Dropping fields after normalising is normalising what is left after dropping them. */
  lemma DroppingCommutes(fields: seq<Entry>)
    requires DistinctKeys(fields)
    ensures Record(Counting(NormalizeValue(Record(fields)).entries)) == NormalizeValue(Record(OwnFields(fields)))
  {
    OwnFieldsAre(fields);
    NormalRecordIs(fields);
    NormalRecordIs(OwnFields(fields));
    var r := NormalizeValue(Record(fields)).entries;
    var s := NormalizeValue(Record(OwnFields(fields))).entries;
    CountingKeepsOrder(r);
    hide NormalizeValue, Sorted, Counts, DistinctKeys;
    forall x ensures x in Counting(r) <==> x in s {
      if x in Counting(r) {
        var i :| 0 <= i < |fields| && NormalEntries(fields)[i] == x;
        assert fields[i] in OwnFields(fields);
        var j :| 0 <= j < |OwnFields(fields)| && OwnFields(fields)[j] == fields[i];
        assert NormalEntries(OwnFields(fields))[j] == x;
      }
      if x in s {
        var j :| 0 <= j < |OwnFields(fields)| && NormalEntries(OwnFields(fields))[j] == x;
        assert OwnFields(fields)[j] in fields;
        var i :| 0 <= i < |fields| && fields[i] == OwnFields(fields)[j];
        assert NormalEntries(fields)[i] == x;
      }
    }
    SameEntriesSameList(Counting(r), s);
  }

  /** Every `undefined` in a list made `null`, as its JSON text has it; one that is a property stays. */
  function Filled(v: Value): Value {
    match v
    case List(items) =>
      List(seq(|items|, i requires 0 <= i < |items| => if items[i].Undefined? then Null else Filled(items[i])))
    case Record(entries) => Record(FilledEntries(entries))
    case _ => v
  }

  function FilledEntries(entries: seq<Entry>): (r: seq<Entry>)
    ensures |r| == |entries|
    ensures forall i :: 0 <= i < |r| ==> r[i] == Entry(entries[i].key, Filled(entries[i].value))
  {
    seq(|entries|, i requires 0 <= i < |entries| => Entry(entries[i].key, Filled(entries[i].value)))
  }

  lemma {:induction false} FilledIsWellFormed(v: Value)
    requires WellFormed(v)
    ensures WellFormed(Filled(v))
    decreases v
  {
    match v
    case List(items) =>
      forall i | 0 <= i < |items| ensures WellFormed(Filled(v).items[i]) { FilledIsWellFormed(items[i]); }
    case Record(entries) =>
      forall i | 0 <= i < |entries| ensures WellFormed(Filled(v).entries[i].value) { FilledIsWellFormed(entries[i].value); }
    case _ =>
  }

  function JsonEntries(entries: seq<Entry>): (r: seq<Entry>)
    ensures |r| == |entries|
    ensures forall i :: 0 <= i < |r| ==> r[i] == Entry(entries[i].key, Json(entries[i].value))
    ensures Json(Record(entries)) == Record(r)
  {
    seq(|entries|, i requires 0 <= i < |entries| => Entry(entries[i].key, Json(entries[i].value)))
  }

  /** The JSON text of a normal form is the normal form of the value with its gaps filled. */
  lemma {:induction false} JsonFillsGaps(v: Value)
    requires WellFormed(v)
    ensures Json(NormalizeValue(v)) == NormalizeValue(Filled(v))
    decreases v
  {
    match v
    case List(items) =>
      forall i | 0 <= i < |items| ensures Json(NormalizeValue(v)).items[i] == NormalizeValue(Filled(v)).items[i] { JsonFillsGaps(items[i]); }
      assert Json(NormalizeValue(v)).items == NormalizeValue(Filled(v)).items;
    case Record(entries) =>
      forall i | 0 <= i < |entries| ensures Json(NormalizeValue(entries[i].value)) == NormalizeValue(Filled(entries[i].value)) {
        JsonFillsGaps(entries[i].value);
      }
      FillingRecords(entries);
    case _ =>
  }

  lemma FillingRecords(entries: seq<Entry>)
    requires DistinctKeys(entries)
    requires forall i :: 0 <= i < |entries| ==> Json(NormalizeValue(entries[i].value)) == NormalizeValue(Filled(entries[i].value))
    ensures Json(NormalizeValue(Record(entries))) == NormalizeValue(Record(FilledEntries(entries)))
  {
    hide NormalizeValue, Json, Filled;
    NormalRecordIs(entries);
    NormalRecordIs(FilledEntries(entries));
    FilledAlike(entries, NormalizeValue(Record(entries)).entries, NormalizeValue(Record(FilledEntries(entries))).entries);
    var _ := JsonEntries(NormalizeValue(Record(entries)).entries);
  }

  lemma FilledAlike(entries: seq<Entry>, r: seq<Entry>, s: seq<Entry>)
    requires Sorted(r) && forall x :: x in r <==> x in NormalEntries(entries) && x.value != Undefined
    requires Sorted(s) && forall x :: x in s <==> x in NormalEntries(FilledEntries(entries)) && x.value != Undefined
    requires forall i :: 0 <= i < |entries| ==> Json(NormalizeValue(entries[i].value)) == NormalizeValue(Filled(entries[i].value))
    ensures JsonEntries(r) == s
  {
    hide NormalizeValue, Json, Filled;
    var j := JsonEntries(r);
    forall x ensures x in j <==> x in s {
      if x in j { var k :| 0 <= k < |j| && j[k] == x; FilledOnward(entries, r, s, k); }
      if x in s { FilledBack(entries, r, s, x); }
    }
    SameEntriesSameList(j, s);
  }

  lemma FilledOnward(entries: seq<Entry>, r: seq<Entry>, s: seq<Entry>, k: nat)
    requires forall x :: x in r ==> x in NormalEntries(entries) && x.value != Undefined
    requires forall x :: x in NormalEntries(FilledEntries(entries)) && x.value != Undefined ==> x in s
    requires forall i :: 0 <= i < |entries| ==> Json(NormalizeValue(entries[i].value)) == NormalizeValue(Filled(entries[i].value))
    requires k < |r|
    ensures Entry(r[k].key, Json(r[k].value)) in s
  {
    hide NormalizeValue, Json, Filled;
    assert r[k] in r;
    var i :| 0 <= i < |entries| && NormalEntries(entries)[i] == r[k];
    JsonOfDefined(r[k].value);
    assert NormalEntries(FilledEntries(entries))[i] == Entry(r[k].key, Json(r[k].value));
  }

  lemma FilledBack(entries: seq<Entry>, r: seq<Entry>, s: seq<Entry>, x: Entry)
    requires forall e :: e in NormalEntries(entries) && e.value != Undefined ==> e in r
    requires forall e :: e in s ==> e in NormalEntries(FilledEntries(entries)) && e.value != Undefined
    requires forall i :: 0 <= i < |entries| ==> Json(NormalizeValue(entries[i].value)) == NormalizeValue(Filled(entries[i].value))
    requires x in s
    ensures x in JsonEntries(r)
  {
    hide NormalizeValue, Json, Filled;
    var i :| 0 <= i < |entries| && NormalEntries(FilledEntries(entries))[i] == x;
    UndefinedStays(entries[i].value);
    assert NormalEntries(entries)[i] in r;
    var k :| 0 <= k < |r| && r[k] == NormalEntries(entries)[i];
    assert JsonEntries(r)[k] == x;
  }

  lemma UndefinedStays(v: Value)
    ensures NormalizeValue(v) == Undefined <==> v == Undefined
    ensures NormalizeValue(Filled(v)) == Undefined <==> v == Undefined
  {
  }

  lemma JsonOfDefined(v: Value)
    ensures Json(v) == Undefined <==> v == Undefined
  {
  }

  /** A request to save, as it is fingerprinted. */
  datatype Save = Save(actor: string, purpose: string, operation: string, target: Option<string>, fields: seq<Entry>)

  function FingerprintOf(x: Save): Fingerprint {
    ImageClaimFingerprint(x.actor, x.purpose, x.operation, x.target, x.fields)
  }

  /**
   * Two saves have one fingerprint exactly when the same user asks for the same operation on the same
   * target for the same purpose, and the fields that count are the same once the gaps in their lists
   * are filled.
   */
  lemma FingerprintsDecide(x: Save, y: Save)
    requires WellFormed(Record(x.fields)) && WellFormed(Record(y.fields))
    ensures FingerprintOf(x) == FingerprintOf(y) <==>
              && x.actor == y.actor && x.purpose == y.purpose && x.operation == y.operation && x.target == y.target
              && Same(Filled(Record(OwnFields(x.fields))), Filled(Record(OwnFields(y.fields))))
  {
    var a, b := x.fields, y.fields;
    DroppingCommutes(a);
    DroppingCommutes(b);
    OwnFieldsKeep(a);
    OwnFieldsKeep(b);
    JsonFillsGaps(Record(OwnFields(a)));
    JsonFillsGaps(Record(OwnFields(b)));
    FilledIsWellFormed(Record(OwnFields(a)));
    FilledIsWellFormed(Record(OwnFields(b)));
    NormalFormsDecide(Filled(Record(OwnFields(a))), Filled(Record(OwnFields(b))));
    hide Same, NormalizeValue, Filled, OwnFields, Json, Counting;
  }

  /**
   * Which of a request's fields count: all but the upload's own two, the two bookkeeping columns, the
   * password, and an image URL that is null or empty.
   */
  lemma FieldsThatCount(fields: seq<Entry>, e: Entry)
    requires DistinctKeys(fields)
    ensures e in OwnFields(fields) <==>
              && e in fields
              && e.key != "imageUploadId" && e.key != "imageCreationContextToken" && e.key != "createdBy" && e.key != "updatedBy"
              && e.key != "password"
              && !(e.key == "imageUrl" && (e.value.Null? || e.value == Text("") || e.value == Instant("")))
  {
    OwnFieldsAre(fields);
    var v := NormalizeValue(e.value);
    assert (v == Null <==> e.value.Null?) && (v == Text("") <==> e.value == Text("") || e.value == Instant(""));
    hide NormalizeValue, OwnFields;
  }

  lemma OwnFieldsKeep(fields: seq<Entry>)
    requires WellFormed(Record(fields))
    ensures WellFormed(Record(OwnFields(fields))) && (NoGaps(Record(fields)) ==> NoGaps(Record(OwnFields(fields))))
  {
    OwnFieldsAre(fields);
    forall i | 0 <= i < |OwnFields(fields)|
      ensures WellFormed(OwnFields(fields)[i].value) && (NoGaps(Record(fields)) ==> NoGaps(OwnFields(fields)[i].value))
    {
      assert OwnFields(fields)[i] in fields;
      var j :| 0 <= j < |fields| && fields[j] == OwnFields(fields)[i];
    }
  }

  // ---- Requests as they arrive ----------------------------------------------------------------------------

  /** Nothing in any list is `undefined`. */
  predicate NoGaps(v: Value) {
    match v
    case List(items) => forall i | 0 <= i < |items| :: !items[i].Undefined? && NoGaps(items[i])
    case Record(entries) => forall i | 0 <= i < |entries| :: NoGaps(entries[i].value)
    case _ => true
  }

  /** As JSON can be: no `undefined` anywhere. */
  predicate Parsed(v: Value) {
    match v
    case Undefined => false
    case List(items) => forall i | 0 <= i < |items| :: Parsed(items[i])
    case Record(entries) => forall i | 0 <= i < |entries| :: Parsed(entries[i].value)
    case _ => true
  }

  lemma {:induction false} ParsedHasNoGaps(v: Value)
    requires Parsed(v)
    ensures NoGaps(v)
    decreases v
  {
    match v
    case List(items) => forall i | 0 <= i < |items| ensures NoGaps(items[i]) { ParsedHasNoGaps(items[i]); }
    case Record(entries) => forall i | 0 <= i < |entries| ensures NoGaps(entries[i].value) { ParsedHasNoGaps(entries[i].value); }
    case _ =>
  }

  lemma {:induction false} NothingToFill(v: Value)
    requires NoGaps(v)
    ensures Filled(v) == v
    decreases v
  {
    match v
    case List(items) =>
      forall i | 0 <= i < |items| ensures Filled(items[i]) == items[i] { NothingToFill(items[i]); }
      assert Filled(v).items == items;
    case Record(entries) =>
      forall i | 0 <= i < |entries| ensures Filled(entries[i].value) == entries[i].value { NothingToFill(entries[i].value); }
      assert Filled(v).entries == entries;
    case _ =>
  }

  /**
   * For fields without a gap, which whatever was decoded from a request body is: one fingerprint
   * exactly when it is the same save, up to the order of fields, absent fields and date formats.
   */
  lemma RequestFingerprintsDecide(x: Save, y: Save)
    requires WellFormed(Record(x.fields)) && WellFormed(Record(y.fields))
    requires (NoGaps(Record(x.fields)) || Parsed(Record(x.fields))) && (NoGaps(Record(y.fields)) || Parsed(Record(y.fields)))
    ensures FingerprintOf(x) == FingerprintOf(y) <==>
              && x.actor == y.actor && x.purpose == y.purpose && x.operation == y.operation && x.target == y.target
              && Same(Record(OwnFields(x.fields)), Record(OwnFields(y.fields)))
  {
    var a, b := x.fields, y.fields;
    if Parsed(Record(a)) { ParsedHasNoGaps(Record(a)); }
    if Parsed(Record(b)) { ParsedHasNoGaps(Record(b)); }
    FingerprintsDecide(x, y);
    OwnFieldsKeep(a);
    OwnFieldsKeep(b);
    NothingToFill(Record(OwnFields(a)));
    NothingToFill(Record(OwnFields(b)));
    hide Same, Filled, OwnFields;
  }

  /** A gap in a list, which no request carries, would have the fingerprint of `null`. */
  lemma GapsLookLikeNull(actor: string, purpose: string, operation: string, target: Option<string>)
    ensures var gap, nil := [Entry("a", List([Undefined]))], [Entry("a", List([Null]))];
            && ImageClaimFingerprint(actor, purpose, operation, target, gap) == ImageClaimFingerprint(actor, purpose, operation, target, nil)
            && !Same(Record(OwnFields(gap)), Record(OwnFields(nil)))
  {
    hide Same, ImageClaimFingerprint, NormalizeValue;
    var gap, nil := [Entry("a", List([Undefined]))], [Entry("a", List([Null]))];
    OneField(List([Undefined]));
    OneField(List([Null]));
    FingerprintsDecide(Save(actor, purpose, operation, target, gap), Save(actor, purpose, operation, target, nil));
    assert Filled(gap[0].value).items == [Null] == Filled(nil[0].value).items;
    assert FilledEntries(gap) == nil == FilledEntries(nil);
    NormalFormsDecide(Record(nil), Record(nil));
    GapIsNotNull();
  }

  lemma OneField(v: Value)
    requires v.List? && WellFormed(v)
    ensures OwnFields([Entry("a", v)]) == [Entry("a", v)] && WellFormed(Record([Entry("a", v)]))
  {
    assert [Entry("a", v)][1..] == [];
  }

  lemma GapIsNotNull()
    ensures !Same(Record([Entry("a", List([Undefined]))]), Record([Entry("a", List([Null]))]))
  {
    var a, b := [Entry("a", List([Undefined]))], [Entry("a", List([Null]))];
    assert !Same(a[0].value, b[0].value) by { assert !Same(a[0].value.items[0], b[0].value.items[0]); }
    assert !Covered(a, b, 0);
  }
}

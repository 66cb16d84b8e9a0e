/** What an edited hook configuration means, and when an event counts as registered. */
module HookMeaning {
  import opened Wrappers
  import opened Json
  import opened JsonEdit
  import opened HookConfig

  type Fields = seq<(seq<int>, Data)>

  // ---- objects as lists of fields ---------------------------------------------------------------------

  predicate HasField(fs: Fields, key: seq<int>) { exists i :: 0 <= i < |fs| && fs[i].0 == key }

  function FirstField(fs: Fields, key: seq<int>): Data
    requires HasField(fs, key)
  {
    if fs[0].0 == key then fs[0].1 else FirstField(fs[1..], key)
  }

  /** What a Go map keeps of the fields: the last value of a key. */
  function LastField(fs: Fields, key: seq<int>): Option<Data> {
    if fs == [] then None
    else if fs[|fs| - 1].0 == key then Some(fs[|fs| - 1].1)
    else LastField(fs[..|fs| - 1], key)
  }

  function UpdateFirst(fs: Fields, key: seq<int>, v: Data): Fields
    requires HasField(fs, key)
  {
    if fs[0].0 == key then [(key, v)] + fs[1..] else [fs[0]] + UpdateFirst(fs[1..], key, v)
  }

  predicate UniqueField(fs: Fields, key: seq<int>) {
    forall i, j :: 0 <= i < j < |fs| && fs[i].0 == key ==> fs[j].0 != key
  }

  /** Where the first field with a key is. */
  function FirstIndex(fs: Fields, key: seq<int>): (n: nat)
    requires HasField(fs, key)
    ensures n < |fs| && fs[n].0 == key && FirstField(fs, key) == fs[n].1
    ensures forall i :: 0 <= i < n ==> fs[i].0 != key
  {
    if fs[0].0 == key then 0 else 1 + FirstIndex(fs[1..], key)
  }

  lemma {:induction false} UpdateAt(fs: Fields, key: seq<int>, v: Data)
    requires HasField(fs, key)
    ensures UpdateFirst(fs, key, v) == fs[FirstIndex(fs, key) := (key, v)]
    decreases |fs|
  {
    hide FirstField;
    var n := FirstIndex(fs, key);
    if fs[0].0 != key {
      assert fs[1..][n - 1].0 == key;
      UpdateAt(fs[1..], key, v);
      assert fs == [fs[0]] + fs[1..];
    }
  }

  lemma {:induction false} LastIndex(fs: Fields, key: seq<int>)
    ensures LastField(fs, key).Some? <==> HasField(fs, key)
    ensures forall n :: 0 <= n < |fs| && fs[n].0 == key && (forall i :: n < i < |fs| ==> fs[i].0 != key) ==>
        LastField(fs, key) == Some(fs[n].1)
    decreases |fs|
  {
    if fs != [] && fs[|fs| - 1].0 != key {
      var before := fs[..|fs| - 1];
      LastIndex(before, key);
      if HasField(fs, key) {
        var i :| 0 <= i < |fs| && fs[i].0 == key;
        assert before[i].0 == key;
      }
      forall n | 0 <= n < |fs| && fs[n].0 == key && (forall i :: n < i < |fs| ==> fs[i].0 != key)
        ensures LastField(fs, key) == Some(fs[n].1)
      {
        assert before[n] == fs[n];
      }
    }
  }

  /** Updating the first field with a key changes what the map keeps exactly when the key is unique. */
  lemma {:induction false} UpdateLast(fs: Fields, key: seq<int>, v: Data, other: seq<int>)
    requires HasField(fs, key)
    ensures LastField(UpdateFirst(fs, key, v), other) == if other == key && UniqueField(fs, key) then Some(v)
        else LastField(fs, other)
    ensures HasField(UpdateFirst(fs, key, v), other) == HasField(fs, other)
    ensures UniqueField(UpdateFirst(fs, key, v), other) == UniqueField(fs, other)
    ensures HasField(UpdateFirst(fs, key, v), key) && FirstField(UpdateFirst(fs, key, v), key) == v
  {
    var n := FirstIndex(fs, key);
    var r := fs[n := (key, v)];
    UpdateAt(fs, key, v);
    UpdateLastAt(fs, n, key, v, other);
    hide LastField, UpdateFirst, FirstIndex;
    SameKeys(fs, r, other);
    SameKeys(fs, r, key);
    assert r[n].0 == key;
    assert FirstIndex(r, key) == n;
  }

  lemma SameKeys(fs: Fields, r: Fields, key: seq<int>)
    requires |r| == |fs| && forall i :: 0 <= i < |fs| ==> r[i].0 == fs[i].0
    ensures HasField(r, key) == HasField(fs, key) && UniqueField(r, key) == UniqueField(fs, key)
  {
    if HasField(fs, key) {
      var i :| 0 <= i < |fs| && fs[i].0 == key;
      assert r[i].0 == key;
    }
    if HasField(r, key) {
      var i :| 0 <= i < |r| && r[i].0 == key;
      assert fs[i].0 == key;
    }
  }

  lemma {:induction false} UpdateLastAt(fs: Fields, n: nat, key: seq<int>, v: Data, other: seq<int>)
    requires n < |fs| && fs[n].0 == key && forall i :: 0 <= i < n ==> fs[i].0 != key
    ensures LastField(fs[n := (key, v)], other) == if other == key && UniqueField(fs, key) then Some(v)
        else LastField(fs, other)
    decreases |fs|
  {
    var r := fs[n := (key, v)];
    var last := |fs| - 1;
    if n == last {
      assert r[..last] == fs[..last];
      assert UniqueField(fs, key);
    } else {
      assert r[..last] == fs[..last][n := (key, v)];
      UpdateLastAt(fs[..last], n, key, v, other);
      if fs[last].0 == key {
        assert !UniqueField(fs, key);
      } else {
        assert UniqueField(fs, key) == UniqueField(fs[..last], key) by { UniquePrefix(fs, key); }
      }
    }
  }

  lemma UniquePrefix(fs: Fields, key: seq<int>)
    requires fs != [] && fs[|fs| - 1].0 != key
    ensures UniqueField(fs, key) == UniqueField(fs[..|fs| - 1], key)
  {
    if UniqueField(fs[..|fs| - 1], key) {
      forall i, j | 0 <= i < j < |fs| && fs[i].0 == key
        ensures fs[j].0 != key
      {
        if j < |fs| - 1 { assert fs[..|fs| - 1][i].0 == key; assert fs[..|fs| - 1][j] == fs[j]; }
      }
    }
  }

  /** A new last field is what the map keeps for its key, and changes no other key. */
  lemma AppendLast(fs: Fields, key: seq<int>, v: Data, other: seq<int>)
    requires !HasField(fs, key)
    ensures LastField(fs + [(key, v)], other) == if other == key then Some(v) else LastField(fs, other)
    ensures UniqueField(fs + [(key, v)], other) == if other == key then true else UniqueField(fs, other)
  {
    var r := fs + [(key, v)];
    assert r[..|r| - 1] == fs && r[|fs|] == (key, v);
    if other != key { UniquePrefix(r, other); }
  }

  // ---- the edit, as a change of meaning -------------------------------------------------------------------

  const Hooks: seq<int> := Codes(HooksKey)

  /** The hooks object with one entry appended to the event's list. */
  function EntryAdded(hooks: Data, event: seq<int>, entry: Data): Option<Data> {
    if !hooks.Record? then None
    else if !HasField(hooks.fields, event) then Some(Record(hooks.fields + [(event, List([entry]))]))
    else
      var entries := FirstField(hooks.fields, event);
      if !entries.List? then None else Some(Record(UpdateFirst(hooks.fields, event, List(entries.items + [entry]))))
  }

  function DataAdded(root: Data, event: seq<int>, entry: Data): Option<Data> {
    if !root.Record? then None
    else if !HasField(root.fields, Hooks) then Some(Record(root.fields + [(Hooks, Record([(event, List([entry]))]))]))
    else
      var hooks := EntryAdded(FirstField(root.fields, Hooks), event, entry);
      if hooks.None? then None else Some(Record(UpdateFirst(root.fields, Hooks, hooks.value)))
  }

  lemma {:induction false} AppendedItems(es: Elems, before: string, v: Value)
    requires es.Elem? && WellFormedElems(es) && Blank(before) && WellFormed(v)
    ensures Items(AppendTo(es, before, v)) == Items(es) + [Meaning(v)]
    decreases es
  {
    if es.rest.Elem? { AppendedItems(es.rest, before, v); }
  }

  lemma {:induction false} AppendedFields(ms: Members, before: string, key: string, v: Value)
    requires ms.Member? && WellFormedMembers(ms) && Blank(before) && ValidBody(key) && WellFormed(v)
    ensures Json.Fields(AppendMemberTo(ms, before, key, v)) == Json.Fields(ms) + [(Decoded(key), Meaning(v))]
    decreases ms
  {
    if ms.rest.Member? { AppendedFields(ms.rest, before, key, v); }
  }

  lemma {:induction false} KeysAreFields(ms: Members, name: string)
    requires WellFormedMembers(ms)
    ensures HasKey(ms, name) <==> HasField(Json.Fields(ms), Codes(name))
    ensures HasKey(ms, name) ==> Meaning(FirstValue(ms, name)) == FirstField(Json.Fields(ms), Codes(name))
    decreases ms
  {
    if ms.Member? {
      KeysAreFields(ms.rest, name);
      var fs := Json.Fields(ms);
      assert fs[1..] == Json.Fields(ms.rest) && fs[0] == (Decoded(ms.key), Meaning(ms.value));
      if HasField(fs[1..], Codes(name)) {
        var i :| 0 <= i < |fs[1..]| && fs[1..][i].0 == Codes(name);
        assert fs[i + 1].0 == Codes(name);
      }
      if HasField(fs, Codes(name)) && !IsKey(ms.key, name) {
        var i :| 0 <= i < |fs| && fs[i].0 == Codes(name);
        assert fs[1..][i - 1].0 == Codes(name);
      }
    }
  }

  lemma {:induction false} ReplacedFields(ms: Members, name: string, v: Value)
    requires WellFormedMembers(ms) && HasKey(ms, name) && WellFormed(v)
    ensures HasField(Json.Fields(ms), Codes(name))
    ensures Json.Fields(ReplaceFirst(ms, name, v)) == UpdateFirst(Json.Fields(ms), Codes(name), Meaning(v))
    decreases ms
  {
    KeysAreFields(ms, name);
    var fs := Json.Fields(ms);
    assert fs[1..] == Json.Fields(ms.rest) && fs[0] == (Decoded(ms.key), Meaning(ms.value));
    if !IsKey(ms.key, name) { ReplacedFields(ms.rest, name, v); }
  }

  lemma WithElemMeaning(v: Value, before: string, close: string, entry: Value)
    requires v.Arr? && WellFormed(v) && Blank(before) && Blank(close) && WellFormed(entry)
    ensures Meaning(WithElem(v, before, close, entry)) == List(Items(v.elems) + [Meaning(entry)])
  {
    if v.elems.Elem? { AppendedItems(v.elems, before, entry); }
  }

  lemma WithMemberMeaning(v: Value, before: string, close: string, key: string, value: Value)
    requires v.Obj? && WellFormed(v) && Blank(before) && Blank(close) && ValidBody(key) && WellFormed(value)
    ensures Meaning(WithMember(v, before, close, key, value)) ==
        Record(Json.Fields(v.members) + [(Decoded(key), Meaning(value))])
  {
    if v.members.Member? { AppendedFields(v.members, before, key, value); }
  }

  lemma OneItem(before: string, v: Value, after: string)
    requires WellFormed(Arr("", Elem(before, v, after, NoElem)))
    ensures WellFormed(v) && Meaning(Arr("", Elem(before, v, after, NoElem))) == List([Meaning(v)])
  {
    assert Items(Elem(before, v, after, NoElem)) == [Meaning(v)] + Items(NoElem);
  }

  lemma OneField(before: string, key: string, v: Value, after: string)
    requires WellFormed(Obj("", Member(before, key, "", " ", v, after, NoMember)))
    ensures ValidBody(key) && WellFormed(v)
    ensures Meaning(Obj("", Member(before, key, "", " ", v, after, NoMember))) == Record([(Decoded(key), Meaning(v))])
  {
    hide ValidBody, Decoded, Blank;
    assert Json.Fields(Member(before, key, "", " ", v, after, NoMember)) ==
      [(Decoded(key), Meaning(v))] + Json.Fields(NoMember);
  }

  lemma FreshArrayMeaning(e: Entry)
    requires ValidEntry(e)
    ensures WellFormed(FreshArray(e)) && WellFormed(e.value) && Meaning(FreshArray(e)) == List([Meaning(e.value)])
  {
    hide WellFormed, Encoded, FreshHooks, Blank, Meaning, ValidBody;
    FreshWellFormed("", e);
    OneItem("\n" + e.lead, e.value, "\n    ");
  }

  lemma FreshMeaning(event: string, e: Entry)
    requires ValidEntry(e)
    ensures WellFormed(e.value) && WellFormed(FreshHooks(event, e))
    ensures Meaning(FreshHooks(event, e)) == Record([(Codes(event), List([Meaning(e.value)]))])
  {
    hide ValidBody, Decoded, Encoded, FreshArray, Blank, WellFormed, Meaning;
    FreshWellFormed(event, e);
    FreshArrayMeaning(e);
    EncodedDecodes(event);
    OneField("\n    ", Encoded(event), FreshArray(e), "\n  ");
  }

  lemma HooksWithNew(hooks: Value, event: string, e: Entry)
    requires WellFormed(hooks) && ValidEntry(e) && hooks.Obj? && !HasKey(hooks.members, event)
    ensures WellFormed(FreshArray(e)) && ValidBody(Encoded(event)) && Blank("\n    ") && Blank("\n  ")
    ensures HooksWith(hooks, event, e) == Ok(WithMember(hooks, "\n    ", "\n  ", Encoded(event), FreshArray(e)))
  {
    FreshWellFormed(event, e);
    Breaks();
    hide ValidBody, Encoded, Blank, FreshArray, FreshHooks, WithMember, WellFormed;
  }

  lemma HooksWithOld(hooks: Value, event: string, e: Entry)
    requires WellFormed(hooks) && ValidEntry(e) && hooks.Obj? && HasKey(hooks.members, event)
    ensures Blank("\n" + e.lead) && Blank("\n    ") && WellFormed(e.value)
    ensures var entries := FirstValue(hooks.members, event);
            HooksWith(hooks, event, e) ==
              if !entries.Arr? then Err(EventNotArray)
              else Ok(hooks.(members :=
                ReplaceFirst(hooks.members, event, WithElem(entries, "\n" + e.lead, "\n    ", e.value))))
  {
    Breaks();
    EntryBreak(e);
    hide ValidBody, Encoded, Blank, FreshArray, FreshHooks, WithElem, WithMember, FirstValue, ReplaceFirst;
  }

  lemma HooksWithMeaning(hooks: Value, event: string, e: Entry)
    requires WellFormed(hooks) && ValidEntry(e)
    ensures HooksWith(hooks, event, e).Ok? <==> EntryAdded(Meaning(hooks), Codes(event), Meaning(e.value)).Some?
    ensures HooksWith(hooks, event, e).Ok? ==>
        Some(Meaning(HooksWith(hooks, event, e).value)) == EntryAdded(Meaning(hooks), Codes(event), Meaning(e.value))
  {
    if hooks.Obj? {
      hide ValidBody, Decoded, Encoded, Blank, FreshArray, HooksWith, HasKey, FirstValue, ReplaceFirst, WithMember,
        WithElem, UpdateFirst, FirstField, HasField;
      MembersWellFormed(hooks);
      KeysAreFields(hooks.members, event);
      if !HasKey(hooks.members, event) {
        HooksWithNew(hooks, event, e);
        FreshArrayMeaning(e);
        EncodedDecodes(event);
        WithMemberMeaning(hooks, "\n    ", "\n  ", Encoded(event), FreshArray(e));
      } else {
        var entries := FirstValue(hooks.members, event);
        HooksWithOld(hooks, event, e);
        if entries.Arr? {
          WithElemMeaning(entries, "\n" + e.lead, "\n    ", e.value);
          ReplacedFields(hooks.members, event, WithElem(entries, "\n" + e.lead, "\n    ", e.value));
        }
      }
    } else {
      hide WithMember, WithElem, FreshArray, FreshHooks;
    }
  }

  /** The edited document is the same document with exactly one element appended to the event's list: an event that
      was missing, or all of `hooks`, is created with that one element. */
  lemma AddedMeaning(d: Document, event: string, e: Entry)
    requires WellFormedDocument(d) && ValidEntry(e)
    ensures Added(d, event, e).Ok? <==> DataAdded(Meaning(d.value), Codes(event), Meaning(e.value)).Some?
    ensures Added(d, event, e).Ok? ==>
        Some(Meaning(Added(d, event, e).value.value)) == DataAdded(Meaning(d.value), Codes(event), Meaning(e.value))
  {
    hide ValidBody, Decoded, Encoded, Blank, FreshHooks, HooksWith, EntryAdded, Added, WithMember, HasKey, FirstValue;
    if d.value.Obj? {
      TopWellFormed(d);
      KeysAreFields(d.value.members, HooksKey);
      if !HasKey(d.value.members, HooksKey) {
        AddedNoHooks(d, event, e);
        FreshMeaning(event, e);
        EncodedDecodes(HooksKey);
        WithMemberMeaning(d.value, "\n  ", "\n", Encoded(HooksKey), FreshHooks(event, e));
      } else {
        var hooks := FirstValue(d.value.members, HooksKey);
        AddedIntoHooks(d, event, e);
        HooksWithMeaning(hooks, event, e);
        if HooksWith(hooks, event, e).Ok? {
          ReplacedFields(d.value.members, HooksKey, HooksWith(hooks, event, e).value);
        }
      }
    } else {
      AddedError(d, event, e);
    }
  }

  lemma AddedIntoHooks(d: Document, event: string, e: Entry)
    requires WellFormedDocument(d) && ValidEntry(e) && d.value.Obj? && HasKey(d.value.members, HooksKey)
    ensures var hooks := HooksWith(FirstValue(d.value.members, HooksKey), event, e);
            Added(d, event, e) == if hooks.Err? then Err(hooks.error)
                                  else Ok(d.(value := d.value.(members :=
                                    ReplaceFirst(d.value.members, HooksKey, hooks.value))))
  {
    hide HooksWith, FreshHooks, WithMember, FirstValue, HasKey, ReplaceFirst;
  }
}

/**
 Registering the hook for every event: registerJSONHooks of internal/hooks/register.go, and
 when a second run finds nothing to do.

 encoding/json is the argument `decode`: it is given to return the tree of every JSON text and
 nothing for any other text. The values it builds keep the last of several equal keys.
 */
module HookRegistration {
  import opened Wrappers
  import opened Json
  import opened JsonEdit
  import opened JsonUnique
  import opened HookConfig
  import opened HookMeaning

  // ---- is the command there? ------------------------------------------------------------------------------

  predicate Contains(s: seq<int>, part: seq<int>) { exists i :: 0 <= i <= |s| && part <= s[i..] }

  const CommandKey: seq<int> := Codes("command")

  predicate Names(command: Data, aliases: seq<string>) {
    command.Text? && exists k :: 0 <= k < |aliases| && Contains(command.codes, Codes(aliases[k]))
  }

  /** A later field with the same key replaces this one. */
  predicate Replaced(fs: Fields, i: nat) { i < |fs| && exists j :: i < j < |fs| && fs[j].0 == fs[i].0 }

  predicate ContainsCommand(x: Data, aliases: seq<string>)
    decreases x
  {
    match x
    case Text(_) => false
    case Literal(_) => false
    case List(items) => exists i :: 0 <= i < |items| && ContainsCommand(items[i], aliases)
    case Record(fields) =>
      exists i :: 0 <= i < |fields| && !Replaced(fields, i)
                  && ((fields[i].0 == CommandKey && Names(fields[i].1, aliases))
                    || ContainsCommand(fields[i].1, aliases))
  }

  datatype RegisterError = WrongShape | EditFailed(error: EditError) | Malformed

  const Null: Data := Literal("null")

  /** A JSON null decodes into an empty map or list. */
  function FieldsOf(x: Data): Option<Fields> {
    if x == Null then Some([]) else if x.Record? then Some(x.fields) else None
  }

  function ListOf(x: Option<Data>): Result<seq<Data>, RegisterError> {
    if x.None? || x.value == Null then Ok([]) else if x.value.List? then Ok(x.value.items) else Err(WrongShape)
  }

  /** The event's entries in one hooks value. */
  function InHooks(hooks: Data, event: string): Result<seq<Data>, RegisterError> {
    var events := FieldsOf(hooks);
    if events.None? then Err(WrongShape) else ListOf(LastField(events.value, Codes(event)))
  }

  function EntriesFor(root: Data, event: string): Result<seq<Data>, RegisterError> {
    var top := FieldsOf(root);
    if top.None? then Err(WrongShape)
    else
      var hooks := LastField(top.value, Hooks);
      if hooks.None? then Ok([]) else InHooks(hooks.value, event)
  }

  /** Whose entries count: those of the last `hooks` and the last list of the event in it. A null or an absent value is
      an empty one, and any other shape an error. */
  lemma EntriesExactly(root: Data, event: string)
    ensures root == Literal("null") ==> EntriesFor(root, event) == Ok([])
    ensures root != Literal("null") && !root.Record? ==> EntriesFor(root, event) == Err(WrongShape)
    ensures root.Record? ==>
              match LastField(root.fields, Hooks)
              case None => EntriesFor(root, event) == Ok([])
              case Some(hooks) =>
                && (hooks == Literal("null") ==> EntriesFor(root, event) == Ok([]))
                && (hooks != Literal("null") && !hooks.Record? ==> EntriesFor(root, event) == Err(WrongShape))
                && (hooks.Record? ==>
                      match LastField(hooks.fields, Codes(event))
                      case None => EntriesFor(root, event) == Ok([])
                      case Some(List(items)) => EntriesFor(root, event) == Ok(items)
                      case Some(x) => EntriesFor(root, event) == if x == Literal("null") then Ok([])
                        else Err(WrongShape))
  {
    hide Codes;
  }

  function EventHasCommand(root: Data, event: string, aliases: seq<string>): Result<bool, RegisterError> {
    var entries := EntriesFor(root, event);
    if entries.Err? then Err(entries.error)
      else Ok(exists i :: 0 <= i < |entries.value| && ContainsCommand(entries.value[i], aliases))
  }

  // ---- what one edit does to it --------------------------------------------------------------------------------

  /** The places the edit changes are the ones the decoder keeps: no second `hooks`, no second list of the event. */
  predicate Unique(root: Data, event: string) {
    root.Record? ==>
      && UniqueField(root.fields, Hooks)
      && (HasField(root.fields, Hooks) && FirstField(root.fields, Hooks).Record? ==>
            UniqueField(FirstField(root.fields, Hooks).fields, Codes(event)))
  }

  lemma {:induction false} CodesInjective(a: string, b: string)
    requires Codes(a) == Codes(b)
    ensures a == b
    decreases |a|
  {
    if a != "" && b != "" {
      assert Codes(a)[0] == Codes(b)[0] && Codes(a)[1..] == Codes(b)[1..];
      CodesInjective(a[1..], b[1..]);
      assert a == [a[0]] + a[1..] && b == [b[0]] + b[1..];
    }
  }

  /** The hooks value the decoder keeps is the one the edit finds. */
  lemma UniqueFirstIsLast(fs: Fields, key: seq<int>)
    requires UniqueField(fs, key)
    ensures HasField(fs, key) ==> LastField(fs, key) == Some(FirstField(fs, key))
    ensures !HasField(fs, key) ==> LastField(fs, key) == None
  {
    LastIndex(fs, key);
    if HasField(fs, key) {
      var n := FirstIndex(fs, key);
    }
  }

  lemma SameCodes(a: string, b: string)
    ensures Codes(a) == Codes(b) <==> a == b
  {
    if Codes(a) == Codes(b) { CodesInjective(a, b); }
  }

  /** What an edit of the hooks value shows for any event. */
  ghost predicate HooksShow(hooks: Data, after: Data, event: string, entry: Data, other: string) {
    && hooks.Record? && after.Record?
    && UniqueField(after.fields, Codes(other)) == UniqueField(hooks.fields, Codes(other))
    && (other != event || !UniqueField(hooks.fields, Codes(event)) ==> InHooks(after, other) == InHooks(hooks, other))
    && (other == event && UniqueField(hooks.fields, Codes(event)) ==>
          InHooks(hooks, event).Ok? && InHooks(after, event) == Ok(InHooks(hooks, event).value + [entry]))
  }

  lemma NewEventShows(hooks: Data, event: string, entry: Data, other: string)
    requires hooks.Record? && !HasField(hooks.fields, Codes(event))
    ensures HooksShow(hooks, Record(hooks.fields + [(Codes(event), List([entry]))]), event, entry, other)
  {
    hide HasField, UniqueField, LastField, Codes;
    SameCodes(other, event);
    NoFieldUnique(hooks.fields, Codes(event));
    AppendLast(hooks.fields, Codes(event), List([entry]), Codes(other));
    LastIndex(hooks.fields, Codes(event));
    assert [] + [entry] == [entry];
  }

  lemma OldEventShows(hooks: Data, event: string, entry: Data, other: string)
    requires hooks.Record? && HasField(hooks.fields, Codes(event)) && FirstField(hooks.fields, Codes(event)).List?
    ensures var more := List(FirstField(hooks.fields, Codes(event)).items + [entry]);
            HooksShow(hooks, Record(UpdateFirst(hooks.fields, Codes(event), more)), event, entry, other)
  {
    hide HasField, UniqueField, LastField, FirstField, UpdateFirst, Codes;
    SameCodes(other, event);
    var fs, key := hooks.fields, Codes(event);
    var more := List(FirstField(fs, key).items + [entry]);
    UpdateLast(fs, key, more, Codes(other));
    if UniqueField(fs, key) { UniqueFirstIsLast(fs, key); }
  }

  lemma EntryAddedShows(hooks: Data, event: string, entry: Data, other: string)
    requires EntryAdded(hooks, Codes(event), entry).Some?
    ensures HooksShow(hooks, EntryAdded(hooks, Codes(event), entry).value, event, entry, other)
  {
    hide HooksShow, UpdateFirst, FirstField, Codes, HasField;
    if !HasField(hooks.fields, Codes(event)) {
      NewEventShows(hooks, event, entry, other);
    } else {
      OldEventShows(hooks, event, entry, other);
    }
  }

  lemma NoFieldUnique(fs: Fields, key: seq<int>)
    requires !HasField(fs, key)
    ensures UniqueField(fs, key)
  {
  }

  /** After an edit the decoder finds, for the event, the old entries and the new one exactly when the places are
      unique; for any other event what it found before. */
  lemma AddedShows(root: Data, event: string, entry: Data, other: string)
    requires DataAdded(root, Codes(event), entry).Some?
    ensures var after := DataAdded(root, Codes(event), entry).value;
            && Unique(after, other) == Unique(root, other)
            && (other != event || !Unique(root, event) ==> EntriesFor(after, other) == EntriesFor(root, other))
            && (other == event && Unique(root, event) ==>
                  EntriesFor(root, event).Ok?
                    && EntriesFor(after, event) == Ok(EntriesFor(root, event).value + [entry]))
  {
    hide EntryAdded, InHooks;
    if !HasField(root.fields, Hooks) {
      FirstHooksShow(root, event, entry, other);
      FirstHooksShow(root, event, entry, event);
      assert [] + [entry] == [entry];
    } else {
      HooksChangeShows(root, event, entry, other);
    }
  }

  lemma FirstHooksShow(root: Data, event: string, entry: Data, other: string)
    requires root.Record? && !HasField(root.fields, Hooks)
    ensures var after := Record(root.fields + [(Hooks, Record([(Codes(event), List([entry]))]))]);
            && Unique(root, other) && Unique(after, other) && EntriesFor(root, other) == Ok([])
            && EntriesFor(after, other) == Ok(if other == event then [entry] else [])
  {
    if other != event && Codes(other) == Codes(event) { CodesInjective(other, event); }
    var hooks := Record([(Codes(event), List([entry]))]);
    AppendLast(root.fields, Hooks, hooks, Hooks);
    LastIndex(root.fields, Hooks);
    NoFieldUnique(root.fields, Hooks);
    var after := root.fields + [(Hooks, hooks)];
    assert after[|root.fields|].0 == Hooks;
    var n := FirstIndex(after, Hooks);
    assert n == |root.fields|;
    assert hooks.fields[..0] == [];
    assert LastField(hooks.fields, Codes(other)) == if other == event then Some(List([entry])) else None;
  }

  lemma HooksChangeShows(root: Data, event: string, entry: Data, other: string)
    requires root.Record? && HasField(root.fields, Hooks)
        && EntryAdded(FirstField(root.fields, Hooks), Codes(event), entry).Some?
    ensures var after := DataAdded(root, Codes(event), entry).value;
            && Unique(after, other) == Unique(root, other)
            && (other != event || !Unique(root, event) ==> EntriesFor(after, other) == EntriesFor(root, other))
            && (other == event && Unique(root, event) ==>
                  EntriesFor(root, event).Ok?
                    && EntriesFor(after, event) == Ok(EntriesFor(root, event).value + [entry]))
  {
    var hooks := FirstField(root.fields, Hooks);
    EntryAddedShows(hooks, event, entry, other);
    var hooks' := EntryAdded(hooks, Codes(event), entry).value;
    UpdateLast(root.fields, Hooks, hooks', Hooks);
    assert hooks.Record?;
    var after := Record(UpdateFirst(root.fields, Hooks, hooks'));
    hide EntryAdded, InHooks, UpdateFirst, LastField, FirstField, HasField;
    if UniqueField(root.fields, Hooks) { UniqueFirstIsLast(root.fields, Hooks); }
  }

  // ---- registering every event ----------------------------------------------------------------------------------

  /** encoding/json, as far as the code relies on it. */
  ghost predicate Decodes(decode: string -> Option<Document>) {
    forall data, d :: decode(data) == Some(d) <==> IsText(data, d)
  }

  /** Such a decoder exists, because no text is the text of two documents. */
  lemma DecoderExists()
    ensures exists decode :: Decodes(decode)
  {
    hide WellFormed, RenderDocument;
    var decode := (data: string) => if exists d :: IsText(data, d) then (var d :| IsText(data, d); Some(d)) else None;
    forall data, d
      ensures decode(data) == Some(d) <==> IsText(data, d)
    {
      if IsText(data, d) && decode(data) != Some(d) { Unambiguous(data, decode(data).value, d); }
    }
    assert Decodes(decode);
  }

  ghost predicate ValidEntries(entries: seq<Entry>) { forall k :: 0 <= k < |entries| ==> ValidEntry(entries[k]) }

  /** The document after the loop over the events, and whether anything was added. */
  function RegisterTree(d: Document, events: seq<string>, entries: seq<Entry>,
      aliases: seq<string>): (r: Result<(Document, bool), RegisterError>)
    requires WellFormedDocument(d) && |entries| == |events| && forall k :: 0 <= k < |entries| ==> ValidEntry(entries[k])
    ensures r.Ok? ==> WellFormedDocument(r.value.0) && (!r.value.1 ==> r.value.0 == d)
    decreases |events|
  {
    if events == [] then Ok((d, false))
    else
      var has := EventHasCommand(Meaning(d.value), events[0], aliases);
      if has.Err? then Err(has.error)
      else if has.value then RegisterTree(d, events[1..], entries[1..], aliases)
      else
        var added := Added(d, events[0], entries[0]);
        if added.Err? then Err(EditFailed(added.error))
        else Also(true, RegisterTree(added.value, events[1..], entries[1..], aliases))
  }

  function Also(changed: bool, r: Result<(Document, bool), RegisterError>): Result<(Document, bool), RegisterError> {
    if r.Err? then r else Ok((r.value.0, changed || r.value.1))
  }

  /** The whole registration of an existing file: every missing event gets its entry, in one text, or nothing is
      written at all. */
  method RegisterJsonHooks(data: string, decode: string -> Option<Document>, events: seq<string>, entries: seq<Entry>,
      aliases: seq<string>)
    returns (res: Result<(string, bool), RegisterError>)
    requires Decodes(decode) && |entries| == |events| && ValidEntries(entries)
    ensures match decode(data)
            case None => res == Err(Malformed)
            case Some(d) =>
              WellFormedDocument(d) &&
              match RegisterTree(d, events, entries, aliases)
              case Err(error) => res == Err(error)
              case Ok((d', changed)) => res == Ok((RenderDocument(d'), changed)) && (!changed ==> res.value.0 == data)
  {
    hide Added, EventHasCommand, Meaning, RenderDocument, WellFormed;
    var tree := decode(data);
    if tree.None? { return Err(Malformed); }
    assert IsText(data, tree.value);
    var updated, changed := data, false;
    var i := 0;
    while i < |events|
      invariant 0 <= i <= |events|
      invariant decode(updated).Some? && IsText(updated, decode(updated).value)
      invariant RegisterTree(tree.value, events, entries, aliases) ==
                  Also(changed, RegisterTree(decode(updated).value, events[i..], entries[i..], aliases))
      invariant !changed ==> updated == data
    {
      var d := decode(updated).value;
      assert events[i..][1..] == events[i + 1..] && entries[i..][1..] == entries[i + 1..];
      var registered := EventHasCommand(Meaning(d.value), events[i], aliases);
      if registered.Err? { return Err(registered.error); }
      if !registered.value {
        var edited := AddHookEntry(updated, events[i], entries[i], d);
        if edited.Err? { return Err(EditFailed(edited.error)); }
        ghost var d' := Added(d, events[i], entries[i]).value;
        assert IsText(edited.value, d');
        updated, changed := edited.value, true;
      }
      i := i + 1;
    }
    return Ok((updated, changed));
  }

  // ---- a second run ------------------------------------------------------------------------------------------------

  predicate Registered(d: Document, event: string, aliases: seq<string>)
    requires WellFormedDocument(d)
  {
    EventHasCommand(Meaning(d.value), event, aliases) == Ok(true)
  }

  /** The entry carries a command that names the script. */
  predicate Hits(e: Entry, aliases: seq<string>)
    requires ValidEntry(e)
  {
    ContainsCommand(Meaning(e.value), aliases)
  }

  lemma AfterAdding(d: Document, event: string, e: Entry, other: string, aliases: seq<string>)
    requires WellFormedDocument(d) && ValidEntry(e) && Added(d, event, e).Ok?
    ensures var d' := Added(d, event, e).value;
            && Unique(Meaning(d'.value), other) == Unique(Meaning(d.value), other)
            && (other != event ==>
              EventHasCommand(Meaning(d'.value), other, aliases) ==
              EventHasCommand(Meaning(d.value), other, aliases))
            && (other == event ==>
                  (Registered(d', event, aliases) <==>
                     Registered(d, event, aliases) || (Unique(Meaning(d.value), event) && Hits(e, aliases))))
  {
    hide Added, DataAdded, Unique, EntriesFor, ContainsCommand, WellFormed, Meaning, Codes;
    AddedMeaning(d, event, e);
    AddedShows(Meaning(d.value), event, Meaning(e.value), other);
    var d' := Added(d, event, e).value;
    if other == event && Unique(Meaning(d.value), event) {
      OneMore(EntriesFor(Meaning(d.value), event).value, Meaning(e.value), aliases);
    }
  }

  lemma OneMore(items: seq<Data>, entry: Data, aliases: seq<string>)
    ensures (exists i :: 0 <= i < |items + [entry]| && ContainsCommand((items + [entry])[i], aliases)) <==>
              (exists i :: 0 <= i < |items| && ContainsCommand(items[i], aliases)) || ContainsCommand(entry, aliases)
  {
    hide ContainsCommand;
    var all := items + [entry];
    assert all[|items|] == entry;
    if i :| 0 <= i < |items| && ContainsCommand(items[i], aliases) { assert all[i] == items[i]; }
  }

  lemma {:induction false} OthersUntouched(d: Document, events: seq<string>, entries: seq<Entry>, aliases: seq<string>,
      other: string)
    requires WellFormedDocument(d) && |entries| == |events| && ValidEntries(entries)
    requires RegisterTree(d, events, entries, aliases).Ok? && other !in events
    ensures var d' := RegisterTree(d, events, entries, aliases).value.0;
            && EventHasCommand(Meaning(d'.value), other, aliases) == EventHasCommand(Meaning(d.value), other, aliases)
            && Unique(Meaning(d'.value), other) == Unique(Meaning(d.value), other)
    decreases |events|
  {
    hide Added, EventHasCommand, Unique, WellFormed, Meaning;
    if events != [] {
      if EventHasCommand(Meaning(d.value), events[0], aliases) == Ok(true) {
        OthersUntouched(d, events[1..], entries[1..], aliases, other);
      } else {
        AfterAdding(d, events[0], entries[0], other, aliases);
        OthersUntouched(Added(d, events[0], entries[0]).value, events[1..], entries[1..], aliases, other);
      }
    }
  }

  ghost predicate Distinct(events: seq<string>) { forall i, j :: 0 <= i < j < |events| ==> events[i] != events[j] }

  /** After a successful run an event is registered exactly when it was before, or its one list is where the decoder
      looks and its entry names the script. */
  lemma {:induction false} RegisteredAfter(d: Document, events: seq<string>, entries: seq<Entry>, aliases: seq<string>,
      k: nat)
    requires WellFormedDocument(d) && |entries| == |events| && ValidEntries(entries) && Distinct(events) && k < |events|
    requires RegisterTree(d, events, entries, aliases).Ok?
    ensures Registered(RegisterTree(d, events, entries, aliases).value.0, events[k], aliases) <==>
              Registered(d, events[k], aliases) || (Unique(Meaning(d.value), events[k]) && Hits(entries[k], aliases))
    decreases |events|
  {
    hide Added, EventHasCommand, Unique, WellFormed, Meaning, Hits;
    var rest, restEntries := events[1..], entries[1..];
    if EventHasCommand(Meaning(d.value), events[0], aliases) == Ok(true) {
      if k == 0 {
        assert events[0] !in rest;
        OthersUntouched(d, rest, restEntries, aliases, events[0]);
      } else {
        RegisteredAfter(d, rest, restEntries, aliases, k - 1);
      }
    } else {
      var d' := Added(d, events[0], entries[0]).value;
      AfterAdding(d, events[0], entries[0], events[k], aliases);
      if k == 0 {
        assert events[0] !in rest;
        OthersUntouched(d', rest, restEntries, aliases, events[0]);
      } else {
        RegisteredAfter(d', rest, restEntries, aliases, k - 1);
      }
    }
  }

  /** A run changes nothing exactly when every event is registered already. */
  lemma {:induction false} NothingToDo(d: Document, events: seq<string>, entries: seq<Entry>, aliases: seq<string>)
    requires WellFormedDocument(d) && |entries| == |events| && ValidEntries(entries)
    ensures RegisterTree(d, events, entries, aliases) == Ok((d, false)) <==> forall k :: 0 <= k < |events| ==>
        Registered(d, events[k], aliases)
    decreases |events|
  {
    hide Added, EventHasCommand, WellFormed, Meaning;
    if events != [] {
      NothingToDo(d, events[1..], entries[1..], aliases);
      assert forall k :: 1 <= k < |events| ==> events[k] == events[1..][k - 1];
      assert forall k :: 0 <= k < |events| - 1 ==> events[1..][k] == events[k + 1];
    }
  }

  /** Registration is idempotent exactly when each event was registered before, or lies at a place without duplicate
      keys and has an entry that names the script: then, and only then, a second run finds nothing to do and keeps
      the text. */
  lemma IdempotentExactlyWhen(d: Document, events: seq<string>, entries: seq<Entry>, aliases: seq<string>)
    requires WellFormedDocument(d) && |entries| == |events| && ValidEntries(entries) && Distinct(events)
    requires RegisterTree(d, events, entries, aliases).Ok?
    ensures var d' := RegisterTree(d, events, entries, aliases).value.0;
            RegisterTree(d', events, entries, aliases) == Ok((d', false)) <==>
              forall k :: 0 <= k < |events| ==>
                Registered(d, events[k], aliases) || (Unique(Meaning(d.value), events[k]) && Hits(entries[k], aliases))
  {
    hide RegisterTree, Registered, Unique, WellFormed, Meaning, Hits;
    NothingToDo(RegisterTree(d, events, entries, aliases).value.0, events, entries, aliases);
    forall k | 0 <= k < |events|
      ensures Registered(RegisterTree(d, events, entries, aliases).value.0, events[k], aliases) <==>
                Registered(d, events[k], aliases) || (Unique(Meaning(d.value), events[k]) && Hits(entries[k], aliases))
    {
      RegisteredAfter(d, events, entries, aliases, k);
    }
  }

  // ---- the entries --------------------------------------------------------------------------------------------------

  /** Characters that are escaped between double quotes; a display path under $HOME keeps its dollar signs. */
  predicate IsSpecial(c: char, dollar: bool) { c == '\\' || c == '"' || c == '`' || (dollar && c == '$') }

  function ShellEscape(c: char, dollar: bool): string { if IsSpecial(c, dollar) then ['\\', c] else [c] }

  function ShellEscaped(s: string, dollar: bool): string {
    if s == "" then "" else ShellEscape(s[0], dollar) + ShellEscaped(s[1..], dollar)
  }

  predicate UnderHome(s: string) { "$HOME/" <= s || s == "$HOME" }

  function ShellDoubleQuote(s: string): string { "\"" + ShellEscaped(s, !UnderHome(s)) + "\"" }

  function GuardedCommand(display: string, event: string): string {
    var quoted := ShellDoubleQuote(display);
    "test -f " + quoted + " || exit 0; sh " + quoted + (if event == "" then "" else " " + event)
  }

  /** No character of the path is escaped. */
  predicate PlainPath(display: string) {
    forall i :: 0 <= i < |display| ==> !IsSpecial(display[i], !UnderHome(display))
  }

  lemma {:induction false} PlainEscape(s: string, dollar: bool)
    requires forall i :: 0 <= i < |s| ==> !IsSpecial(s[i], dollar)
    ensures ShellEscaped(s, dollar) == s
    decreases |s|
  {
    if s != "" {
      PlainEscape(s[1..], dollar);
      assert s == [s[0]] + s[1..];
    }
  }

  lemma {:induction false} CodesAt(s: string)
    ensures |Codes(s)| == |s| && forall i :: 0 <= i < |s| ==> Codes(s)[i] == s[i] as int
    decreases |s|
  {
    if s != "" { CodesAt(s[1..]); }
  }

  lemma InsideContains(a: string, s: string, b: string)
    ensures Contains(Codes(a + s + b), Codes(s))
  {
    CodesAt(a + s + b);
    CodesAt(s);
    assert Codes(s) <= Codes(a + s + b)[|a|..];
  }

  /** The command for a plain path names it. */
  lemma PlainPathIsNamed(display: string, event: string)
    requires PlainPath(display)
    ensures Contains(Codes(GuardedCommand(display, event)), Codes(display))
  {
    PlainEscape(display, !UnderHome(display));
    var tail := if event == "" then "" else " " + event;
    var middle := " || exit 0; sh ";
    hide UnderHome, ShellEscaped, Codes, Contains, PlainPath;
    PathInside("test -f ", "\"", display, middle, ShellDoubleQuote(display), tail);
    InsideContains("test -f " + "\"", display, "\"" + middle + ShellDoubleQuote(display) + tail);
  }

  lemma PathInside(test: string, quote: string, path: string, middle: string, again: string, tail: string)
    ensures test + (quote + path + quote) + middle + again + tail ==
        (test + quote) + path + (quote + middle + again + tail)
  {
  }

  /** A backquote (and an escaped dollar sign) follows a backslash, a first backslash is followed by an escaped
      character, and a double quote follows a backslash or stands next to a space. */
  predicate TameAt(s: string, j: nat, dollar: bool)
    requires j < |s|
  {
    var before, after := if j > 0 then s[j - 1] else 'x', if j + 1 < |s| then s[j + 1] else 'x';
    && (s[j] == '`' || (dollar && s[j] == '$') ==> before == '\\')
    && (s[j] == '\\' && before != '\\' ==> IsSpecial(after, dollar))
    && (s[j] == '"' ==> before == '\\' || before == ' ' || after == ' ')
  }

  ghost predicate Tame(s: string, dollar: bool) { forall j :: 0 <= j < |s| ==> TameAt(s, j, dollar) }

  lemma TameParts(a: string, b: string, dollar: bool)
    requires Tame(a, dollar) && Tame(b, dollar)
    ensures Tame(a + b, dollar)
  {
    var s := a + b;
    forall j | 0 <= j < |s|
      ensures TameAt(s, j, dollar)
    {
      if j < |a| { assert TameAt(a, j, dollar); } else { assert TameAt(b, j - |a|, dollar); }
    }
  }

  lemma TamePlain(s: string, dollar: bool)
    requires forall k :: 0 <= k < |s| ==> !IsSpecial(s[k], true)
    ensures Tame(s, dollar)
  {
  }

  lemma EscapeIsTame(c: char, dollar: bool)
    ensures Tame(ShellEscape(c, dollar), dollar)
  {
    var s := ShellEscape(c, dollar);
    assert TameAt(s, 0, dollar);
    if |s| == 2 { assert TameAt(s, 1, dollar); }
  }

  lemma {:induction false} EscapedIsTame(s: string, dollar: bool)
    ensures Tame(ShellEscaped(s, dollar), dollar)
    decreases |s|
  {
    hide Tame, ShellEscape;
    if s == "" {
      TamePlain("", dollar);
    } else {
      EscapedIsTame(s[1..], dollar);
      EscapeIsTame(s[0], dollar);
      TameParts(ShellEscape(s[0], dollar), ShellEscaped(s[1..], dollar), dollar);
    }
  }

  lemma QuotesAreTame(tail: string, dollar: bool)
    requires tail != "" && tail[0] == ' ' && Tame(tail, dollar)
    ensures Tame("test -f \"", dollar) && Tame("\" || exit 0; sh \"", dollar) && Tame("\"" + tail, dollar)
  {
    TamePlain("test -f", dollar);
    TamePlain(" || exit 0; sh", dollar);
    assert Tame(" \"", dollar) && Tame("\" ", dollar);
    TameParts("test -f", " \"", dollar);
    assert "\" || exit 0; sh \"" == ("\" " + "|| exit 0; sh") + " \"";
    TamePlain("|| exit 0; sh", dollar);
    TameParts("\" ", "|| exit 0; sh", dollar);
    TameParts("\" " + "|| exit 0; sh", " \"", dollar);
    forall j | 0 <= j < |"\"" + tail|
      ensures TameAt("\"" + tail, j, dollar)
    {
      if j > 0 { assert TameAt(tail, j - 1, dollar); }
    }
  }

  /** The command for any path is tame, with a space behind it. */
  lemma CommandIsTame(display: string, event: string)
    requires forall k :: 0 <= k < |event| ==> !IsSpecial(event[k], true)
    ensures Tame(GuardedCommand(display, event) + " ", !UnderHome(display))
  {
    var dollar := !UnderHome(display);
    var e := ShellEscaped(display, dollar);
    var spaced := if event == "" then "" else " " + event;
    TamePlain(spaced + " ", dollar);
    EscapedIsTame(display, dollar);
    QuotesAreTame(spaced + " ", dollar);
    hide Tame, ShellEscaped;
    TameParts("test -f \"", e, dollar);
    TameParts("test -f \"" + e, "\" || exit 0; sh \"", dollar);
    TameParts("test -f \"" + e + "\" || exit 0; sh \"", e, dollar);
    TameParts("test -f \"" + e + "\" || exit 0; sh \"" + e, "\"" + (spaced + " "), dollar);
    CommandRegrouped(e, spaced);
  }

  lemma CommandRegrouped(e: string, tail: string)
    ensures ("test -f " + ("\"" + e + "\"") + " || exit 0; sh " + ("\"" + e + "\"") + tail) + " " ==
            "test -f \"" + e + "\" || exit 0; sh \"" + e + ("\"" + (tail + " "))
  {
  }

  /** At i the alias has an escaped character that the command cannot spell that way. */
  predicate Betrays(alias: string, display: string, i: nat) {
    && 0 < i < |alias| && alias[i - 1] != '\\'
    && (|| alias[i] == '`'
        || (alias[i] == '$' && !UnderHome(display))
        || (alias[i] == '\\' && i + 1 < |alias| && !IsSpecial(alias[i + 1], !UnderHome(display)))
        || (alias[i] == '"' && i + 1 < |alias| && alias[i - 1] != ' ' && alias[i + 1] != ' '))
  }

  /** Each alias has such a character. */
  ghost predicate AllBetrayed(aliases: seq<string>, display: string) {
    forall k :: 0 <= k < |aliases| ==> exists i: nat :: Betrays(aliases[k], display, i)
  }

  lemma TameSpellsNone(s: string, n: nat, alias: string, display: string, i: nat)
    requires Tame(s, !UnderHome(display)) && n + |alias| < |s| && forall j :: 0 <= j < |alias| ==> s[n + j] == alias[j]
    ensures !Betrays(alias, display, i)
  {
    if 0 < i < |alias| {
      hide UnderHome;
      assert TameAt(s, n + i, !UnderHome(display));
      assert s[n + i] == alias[i] && s[n + i - 1] == alias[i - 1];
      assert i + 1 < |alias| ==> s[n + i + 1] == alias[i + 1];
    }
  }

  lemma AliasIsMissed(display: string, event: string, alias: string, i: nat)
    requires Betrays(alias, display, i) && forall k :: 0 <= k < |event| ==> !IsSpecial(event[k], true)
    ensures !Contains(Codes(GuardedCommand(display, event)), Codes(alias))
  {
    var command := GuardedCommand(display, event);
    CommandIsTame(display, event);
    CodesAt(command);
    CodesAt(alias);
    hide Codes, GuardedCommand, Betrays, Tame, UnderHome;
    if n :| 0 <= n <= |command| && Codes(alias) <= Codes(command)[n..] {
      forall j | 0 <= j < |alias|
        ensures n + j < |command| && command[n + j] == alias[j]
      {
        PrefixAt(Codes(command), Codes(alias), n, j);
      }
      TameSpellsNone(command + " ", n, alias, display, i);
    }
  }

  /** The command for a path with an escaped character inside names none of the aliases that have one inside. */
  lemma EscapedPathIsMissed(display: string, event: string, aliases: seq<string>)
    requires AllBetrayed(aliases, display)
    requires forall k :: 0 <= k < |event| ==> !IsSpecial(event[k], true)
    ensures !Names(Text(Codes(GuardedCommand(display, event))), aliases)
  {
    hide Betrays, Contains, Codes, GuardedCommand, IsSpecial;
    forall k | 0 <= k < |aliases|
      ensures !Contains(Codes(GuardedCommand(display, event)), Codes(aliases[k]))
    {
      var i: nat :| Betrays(aliases[k], display, i);
      AliasIsMissed(display, event, aliases[k], i);
    }
  }

  lemma PrefixAt(s: seq<int>, part: seq<int>, n: nat, i: nat)
    requires n <= |s| && part <= s[n..] && i < |part|
    ensures n + i < |s| && s[n + i] == part[i]
  {
    assert s[n..][i] == part[i];
  }

  function CommandObject(command: string, rest: Members): Value {
    Obj("", Member("\n            ", "type", "", " ", Str("command"), "",
            Member("\n            ", "command", "", " ", Str(Encoded(command)), "", rest)))
  }

  /** The two entry templates: an object with one hook object that carries the command. */
  function HookEntry(command: string, rest: Members): Entry {
    Entry("      ", Obj("", Member("\n        ", "hooks", "", " ",
                                   Arr("", Elem("\n          ", CommandObject(command, rest), "\n        ", NoElem)),
                                     "\n      ", NoMember)))
  }

  const ClaudeRest: Members := Member("\n            ", "timeout", "", " ", Atom("5"), "\n          ", NoMember)
  const CodexRest: Members :=
    Member("\n            ", "timeout", "", " ", Atom("5000"), "",
           Member("\n            ", "statusMessage", "", " ", Str("arcmux session state"), "\n          ", NoMember))

  function ClaudeEntry(command: string): Entry { HookEntry(command, ClaudeRest) }

  function CodexEntry(command: string): Entry { HookEntry(command, CodexRest) }

  lemma {:induction false} PlainDecodes(s: string)
    requires forall i :: 0 <= i < |s| ==> s[i] != '\\' && s[i] != '"' && s[i] >= ' '
    ensures ValidBody(s) && Decoded(s) == Codes(s)
    decreases |s|
  {
    if s != "" { PlainDecodes(s[1..]); }
  }

  /** Fields in which no command can hide. */
  ghost predicate Quiet(fs: Fields) {
    forall i :: 0 <= i < |fs| ==> fs[i].0 != CommandKey && (fs[i].1.Text? || fs[i].1.Literal?)
  }

  lemma CommandFieldHits(fs: Fields, command: seq<int>, kind: (seq<int>, Data), aliases: seq<string>)
    requires Quiet([kind]) && Quiet(fs)
    ensures ContainsCommand(Record([kind, (CommandKey, Text(command))] + fs), aliases) <==>
        Names(Text(command), aliases)
  {
    hide Names, Contains;
    var all := [kind, (CommandKey, Text(command))] + fs;
    assert [kind][0] == kind;
    assert forall j :: 2 <= j < |all| ==> all[j] == fs[j - 2];
    assert !Replaced(all, 1);
    assert all[1] == (CommandKey, Text(command));
    forall i | 0 <= i < |all|
      ensures !ContainsCommand(all[i].1, aliases) && (all[i].0 == CommandKey <==> i == 1)
    {
      if i >= 2 { assert all[i] == fs[i - 2]; }
    }
  }

  /** Neither a list of one nor an object with one other field changes what its part contains. */
  lemma OnePartHits(x: Data, key: seq<int>, aliases: seq<string>)
    ensures ContainsCommand(List([x]), aliases) <==> ContainsCommand(x, aliases)
    ensures key != CommandKey ==> (ContainsCommand(Record([(key, x)]), aliases) <==> ContainsCommand(x, aliases))
  {
    var items, fields := [x], [(key, x)];
    assert items[0] == x && fields[0] == (key, x);
    assert !Replaced(fields, 0);
    assert ContainsCommand(List(items), aliases) <==>
      exists i :: 0 <= i < |items| && ContainsCommand(items[i], aliases);
    assert ContainsCommand(Record(fields), aliases) <==>
      exists i :: 0 <= i < |fields| && !Replaced(fields, i)
                  && ((fields[i].0 == CommandKey && Names(fields[i].1, aliases))
                    || ContainsCommand(fields[i].1, aliases));
  }

  lemma TemplateKeys()
    ensures ValidBody("type") && Decoded("type") == Codes("type") && Codes("type") != CommandKey
    ensures ValidBody("command") && Decoded("command") == CommandKey
    ensures ValidBody("hooks") && Decoded("hooks") == Hooks && Hooks != CommandKey
    ensures ValidBody("timeout") && Decoded("timeout") == Codes("timeout") && Codes("timeout") != CommandKey
    ensures ValidBody("statusMessage") && Decoded("statusMessage") == Codes("statusMessage")
        && Codes("statusMessage") != CommandKey
    ensures ValidBody("arcmux session state")
  {
    hide ValidBody, Decoded, Codes;
    KeyIs("type");
    KeyIs("command");
    KeyIs("hooks");
    KeyIs("timeout");
    KeyIs("statusMessage");
    KeyIs("arcmux session state");
  }

  lemma KeyIs(name: string)
    requires forall i :: 0 <= i < |name| ==> name[i] != '\\' && name[i] != '"' && name[i] >= ' '
    ensures ValidBody(name) && Decoded(name) == Codes(name) && (name != "command" ==> Codes(name) != CommandKey)
  {
    PlainDecodes(name);
    SameCodes(name, "command");
  }

  lemma CommandObjectHits(command: string, rest: Members, aliases: seq<string>)
    requires WellFormedMembers(rest) && Quiet(Json.Fields(rest))
    ensures WellFormed(CommandObject(command, rest))
    ensures ContainsCommand(Meaning(CommandObject(command, rest)), aliases) <==> Names(Text(Codes(command)), aliases)
  {
    TemplateKeys();
    EncodedDecodes(command);
    hide ValidBody, Decoded, Encoded, Codes, Names, ContainsCommand;
    var inner := Member("\n            ", "command", "", " ", Str(Encoded(command)), "", rest);
    var ms := Member("\n            ", "type", "", " ", Str("command"), "", inner);
    assert Blank("\n            ") && Blank(" ") && Blank("");
    assert WellFormedMembers(inner) && WellFormedMembers(ms);
    assert Json.Fields(inner) == [(CommandKey, Text(Codes(command)))] + Json.Fields(rest);
    var kind := (Codes("type"), Text(CommandKey));
    assert Json.Fields(ms) == [kind] + Json.Fields(inner);
    assert Json.Fields(ms) == [kind, (CommandKey, Text(Codes(command)))] + Json.Fields(rest);
    CommandFieldHits(Json.Fields(rest), Codes(command), kind, aliases);
  }

  lemma ListHits(before: string, v: Value, after: string, aliases: seq<string>)
    requires Blank(before) && WellFormed(v) && Blank(after)
    ensures var list := Arr("", Elem(before, v, after, NoElem));
            WellFormed(list) && (ContainsCommand(Meaning(list), aliases) <==> ContainsCommand(Meaning(v), aliases))
  {
    hide ValidBody, Decoded, Codes, ContainsCommand, WellFormed, Meaning;
    OneElemWellFormed(before, v, after);
    OneItem(before, v, after);
    OnePartHits(Meaning(v), [], aliases);
  }

  lemma OneElemWellFormed(before: string, v: Value, after: string)
    requires Blank(before) && WellFormed(v) && Blank(after)
    ensures WellFormed(Arr("", Elem(before, v, after, NoElem)))
  {
    assert Blank("");
    hide Blank;
    assert WellFormedElems(Elem(before, v, after, NoElem));
  }

  lemma OneMemberWellFormed(before: string, key: string, v: Value, after: string)
    requires Blank(before) && ValidBody(key) && WellFormed(v) && Blank(after)
    ensures WellFormed(Obj("", Member(before, key, "", " ", v, after, NoMember)))
  {
    assert Blank("") && Blank(" ");
    hide Blank, ValidBody;
    assert WellFormedMembers(Member(before, key, "", " ", v, after, NoMember));
  }

  lemma FieldHits(before: string, key: string, v: Value, after: string, aliases: seq<string>)
    requires Blank(before) && ValidBody(key) && Decoded(key) != CommandKey && WellFormed(v) && Blank(after)
    ensures var holder := Obj("", Member(before, key, "", " ", v, after, NoMember));
            WellFormed(holder) && (ContainsCommand(Meaning(holder), aliases) <==> ContainsCommand(Meaning(v), aliases))
  {
    hide ValidBody, Decoded, Codes, ContainsCommand, WellFormed, Meaning;
    OneMemberWellFormed(before, key, v, after);
    OneField(before, key, v, after);
    OnePartHits(Meaning(v), Decoded(key), aliases);
  }

  lemma TemplateBlanks()
    ensures Blank("\n          ") && Blank("\n        ") && Blank("\n      ") && Blank("      ")
  {
  }

  /** An entry names the script exactly when its command does. */
  lemma EntryHits(command: string, rest: Members, aliases: seq<string>)
    requires WellFormedMembers(rest) && Quiet(Json.Fields(rest))
    ensures ValidEntry(HookEntry(command, rest))
    ensures Hits(HookEntry(command, rest), aliases) <==> Names(Text(Codes(command)), aliases)
  {
    hide Names, ContainsCommand, CommandObject, Blank, WellFormed, Meaning, Codes, ValidBody, Decoded;
    TemplateBlanks();
    TemplateKeys();
    CommandObjectHits(command, rest, aliases);
    ListHits("\n          ", CommandObject(command, rest), "\n        ", aliases);
    FieldHits("\n        ", "hooks", Arr("", Elem("\n          ", CommandObject(command, rest), "\n        ", NoElem)),
      "\n      ", aliases);
  }

  lemma RestsAreQuiet()
    ensures WellFormedMembers(ClaudeRest) && Quiet(Json.Fields(ClaudeRest))
    ensures WellFormedMembers(CodexRest) && Quiet(Json.Fields(CodexRest))
  {
    TemplateKeys();
    hide ValidBody, Decoded, Codes;
    assert IsNumber("5") && IsNumber("5000");
    assert Json.Fields(ClaudeRest) == [(Codes("timeout"), Literal("5"))] + Json.Fields(NoMember);
    var state := Member("\n            ", "statusMessage", "", " ", Str("arcmux session state"), "\n          ",
      NoMember);
    assert Json.Fields(state) ==
      [(Codes("statusMessage"), Text(Decoded("arcmux session state")))] + Json.Fields(NoMember);
    assert Json.Fields(CodexRest) == [(Codes("timeout"), Literal("5000"))] + Json.Fields(state);
  }

  /** Every entry comes from one of the two templates, with the command for this display path. */
  ghost predicate FromTemplates(events: seq<string>, entries: seq<Entry>, display: string)
    requires |entries| == |events|
  {
    forall k :: 0 <= k < |events| ==>
      entries[k] == ClaudeEntry(GuardedCommand(display, ""))
        || entries[k] == CodexEntry(GuardedCommand(display, events[k]))
  }

  lemma TemplateHits(e: Entry, display: string, event: string, aliases: seq<string>)
    requires e == ClaudeEntry(GuardedCommand(display, event)) || e == CodexEntry(GuardedCommand(display, event))
    requires PlainPath(display) && display in aliases
    ensures ValidEntry(e) && Hits(e, aliases)
  {
    hide WellFormed, WellFormedMembers, Meaning, Json.Fields, Hits, GuardedCommand, PlainPath, HookEntry, ClaudeRest,
      CodexRest, Codes, Contains, Quiet;
    PlainPathIsNamed(display, event);
    RestsAreQuiet();
    var command := GuardedCommand(display, event);
    var n :| 0 <= n < |aliases| && aliases[n] == display;
    assert Names(Text(Codes(command)), aliases);
    hide Names, ValidEntry;
    EntryHits(command, ClaudeRest, aliases);
    EntryHits(command, CodexRest, aliases);
  }

  lemma TemplatesHit(events: seq<string>, entries: seq<Entry>, aliases: seq<string>, display: string)
    requires |entries| == |events| && FromTemplates(events, entries, display)
    requires PlainPath(display) && display in aliases
    ensures ValidEntries(entries) && forall k :: 0 <= k < |events| ==> Hits(entries[k], aliases)
  {
    hide WellFormed, Hits, GuardedCommand, PlainPath, ClaudeEntry, CodexEntry, ValidEntry;
    forall k | 0 <= k < |events|
      ensures ValidEntry(entries[k]) && Hits(entries[k], aliases)
    {
      TemplateHits(entries[k], display, if entries[k] == ClaudeEntry(GuardedCommand(display, "")) then ""
        else events[k], aliases);
    }
  }

  /** For a script path without shell-escaped characters both registrations settle at once, whatever else the file
      holds, as long as its `hooks` and event keys are not duplicated: after one successful run every event is
      registered and a second run changes nothing. */
  lemma PlainPathsSettle(d: Document, events: seq<string>, entries: seq<Entry>, aliases: seq<string>, display: string)
    requires WellFormedDocument(d) && |entries| == |events| && ValidEntries(entries) && Distinct(events)
    requires PlainPath(display) && display in aliases && FromTemplates(events, entries, display)
    requires forall k :: 0 <= k < |events| ==> Unique(Meaning(d.value), events[k])
    requires RegisterTree(d, events, entries, aliases).Ok?
    ensures var d' := RegisterTree(d, events, entries, aliases).value.0;
            && RegisterTree(d', events, entries, aliases) == Ok((d', false))
            && forall k :: 0 <= k < |events| ==> Registered(d', events[k], aliases)
  {
    hide RegisterTree, Registered, Unique, WellFormed, Meaning, Hits, PlainPath, FromTemplates;
    TemplatesHit(events, entries, aliases, display);
    IdempotentExactlyWhen(d, events, entries, aliases);
    NothingToDo(RegisterTree(d, events, entries, aliases).value.0, events, entries, aliases);
  }

  /** A path that none of its aliases is found for is registered again by every run. */
  lemma EscapedPathNeverSettles(d: Document, events: seq<string>, entries: seq<Entry>, aliases: seq<string>,
      display: string, k: nat)
    requires WellFormedDocument(d) && |entries| == |events| && ValidEntries(entries) && Distinct(events) && k < |events|
    requires FromTemplates(events, entries, display) && AllBetrayed(aliases, display)
    requires forall n :: 0 <= n < |events[k]| ==> !IsSpecial(events[k][n], true)
    requires RegisterTree(d, events, entries, aliases).Ok? && !Registered(d, events[k], aliases)
    ensures var d' := RegisterTree(d, events, entries, aliases).value.0;
            RegisterTree(d', events, entries, aliases) != Ok((d', false))
  {
    hide RegisterTree, Registered, Unique, WellFormed, Meaning, AllBetrayed, IsSpecial, GuardedCommand, HookEntry,
      ClaudeRest, CodexRest, Codes, Names;
    var event := if entries[k] == ClaudeEntry(GuardedCommand(display, "")) then "" else events[k];
    EscapedPathIsMissed(display, event, aliases);
    RestsAreQuiet();
    EntryHits(GuardedCommand(display, event), ClaudeRest, aliases);
    EntryHits(GuardedCommand(display, event), CodexRest, aliases);
    IdempotentExactlyWhen(d, events, entries, aliases);
  }

  /** Such paths exist, also under the home directory, where the aliases are the path and its display form. */
  lemma SomePathsAreMissed()
    ensures Betrays("/home/u/a`b", "$HOME/a`b", 9) && Betrays("$HOME/a`b", "$HOME/a`b", 7)
    ensures Betrays("/opt/a$b", "/opt/a$b", 6) && Betrays("/opt/a\\b", "/opt/a\\b", 6)
        && Betrays("/opt/a\"b", "/opt/a\"b", 6)
  {
  }

  /** A second `hooks` key defeats it: the edit goes to the first one, the decoder reads the last one, so every run
      adds again. */
  lemma DuplicateHooksNeverSettle(before: string, after: string, event: string, e: Entry, aliases: seq<string>)
    requires Blank(before) && Blank(after) && ValidEntry(e)
    ensures var twice := Obj("",
        Member(before, "hooks", "", "", Obj("", NoMember), after,
        Member(before, "hooks", "", "", Obj("", NoMember), after, NoMember)));
            && WellFormed(twice) && !Unique(Meaning(twice), event)
            && (RegisterTree(Document("", twice, ""), [event], [e], aliases).Ok? ==>
                  var d' := RegisterTree(Document("", twice, ""), [event], [e], aliases).value.0;
                  RegisterTree(d', [event], [e], aliases) != Ok((d', false)))
  {
    TemplateKeys();
    var second := Member(before, "hooks", "", "", Obj("", NoMember), after, NoMember);
    var twice := Obj("", Member(before, "hooks", "", "", Obj("", NoMember), after, second));
    hide ValidBody, Decoded, Codes;
    assert WellFormed(Obj("", NoMember)) && Meaning(Obj("", NoMember)) == Record([]);
    assert Json.Fields(second) == [(Hooks, Record([]))] + Json.Fields(NoMember);
    var fs := Json.Fields(twice.members);
    assert fs == [(Hooks, Record([])), (Hooks, Record([]))];
    assert fs[0].0 == Hooks && fs[1].0 == Hooks;
    assert !Unique(Meaning(twice), event);
    assert !Registered(Document("", twice, ""), event, aliases) by {
      assert LastField(fs, Hooks) == Some(Record([]));
      assert LastField([], Codes(event)) == None;
    }
    if RegisterTree(Document("", twice, ""), [event], [e], aliases).Ok? {
      IdempotentExactlyWhen(Document("", twice, ""), [event], [e], aliases);
      assert [event][0] == event;
      hide *;
    }
  }
}

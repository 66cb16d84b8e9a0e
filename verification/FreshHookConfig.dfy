/**
 The hook configuration written where there is none: buildFreshHookConfig of
 internal/hooks/register.go. It is the text of a document in which every event is registered,
 so the next run, which finds the file, has nothing to do.
 */
module FreshHookConfig {
  import opened Wrappers
  import opened Json
  import opened JsonEdit
  import opened HookConfig
  import opened HookMeaning
  import opened HookRegistration

  // ---- the document and its text --------------------------------------------------------------------------

  function FreshMembers(events: seq<string>, entries: seq<Entry>): Members
    requires |entries| == |events|
  {
    if events == [] then NoMember
    else Member("\n    ", Encoded(events[0]), "", " ", FreshArray(entries[0]), if |events| == 1 then "\n  " else "",
                FreshMembers(events[1..], entries[1..]))
  }

  function FreshDocument(events: seq<string>, entries: seq<Entry>): Document
    requires |entries| == |events|
  {
    Document("", Obj("", Member("\n  ", Encoded(HooksKey), "", " ", Obj("", FreshMembers(events, entries)), "\n",
      NoMember)), "\n")
  }

  /** What one turn of the loop writes for an event. */
  function EventLine(event: string, e: Entry): string {
    "    " + JsonString(event) + ": [\n" + EntryText(e) + "\n    ]"
  }

  function Listed(first: bool, events: seq<string>, entries: seq<Entry>): string
    requires |entries| == |events|
  {
    if events == [] then ""
    else (if first then "" else ",\n") + (EventLine(events[0], entries[0]) + Listed(false, events[1..], entries[1..]))
  }

  lemma LineIs(event: string, e: Entry)
    ensures EventLine(event, e) == "    " + (JsonString(event) + (": " + Render(FreshArray(e))))
  {
    FreshArrayText(e);
    hide Render, JsonString, EntryText;
    assert ": " + ("[\n" + EntryText(e) + "\n    ]") == ": [\n" + EntryText(e) + "\n    ]";
  }

  lemma OneLine(key: string, list: string, rest: string)
    ensures "\n    " + (key + ("" + (":" + (" " + (list + rest))))) == "\n" + (("    " + (key + (": " + list))) + rest)
  {
  }

  lemma Joined(line: string, more: string, close: string)
    ensures "\n" + (line + ("" + ("," + ("\n" + (more + close))))) == "\n" + ((line + (",\n" + more)) + close)
    ensures "\n" + (line + (close + "")) == "\n" + ((line + "") + close)
  {
  }

  lemma LaterLines(events: seq<string>, entries: seq<Entry>)
    requires |entries| == |events| && events != []
    ensures Listed(false, events, entries) == ",\n" + Listed(true, events, entries)
    ensures Listed(true, events, entries) == EventLine(events[0], entries[0]) + Listed(false, events[1..], entries[1..])
  {
    hide EventLine;
  }

  lemma {:induction false} MembersText(events: seq<string>, entries: seq<Entry>)
    requires |entries| == |events| && events != []
    ensures RenderMembers(FreshMembers(events, entries)) == "\n" + (Listed(true, events, entries) + "\n  ")
    decreases |events|
  {
    hide Listed, EventLine, FreshArray, Quoted, Encoded, Render;
    var event, e, list := events[0], entries[0], Render(FreshArray(entries[0]));
    var after := if |events| == 1 then "\n  " else "";
    var tail := MemberTail(FreshMembers(events[1..], entries[1..]));
    LineIs(event, e);
    OneLine(JsonString(event), list, after + tail);
    LaterLines(events, entries);
    if |events| == 1 {
      NoLines();
      assert events[1..] == [] && entries[1..] == [];
      assert tail == "" && after == "\n  ";
      Joined(EventLine(event, e), "", "\n  ");
    } else {
      MembersText(events[1..], entries[1..]);
      LaterLines(events[1..], entries[1..]);
      Joined(EventLine(event, e), Listed(true, events[1..], entries[1..]), "\n  ");
    }
  }

  lemma NoLines()
    ensures Listed(false, [], []) == ""
  {
  }

  lemma FreshText(events: seq<string>, entries: seq<Entry>)
    requires |entries| == |events| && events != []
    ensures RenderDocument(FreshDocument(events, entries)) ==
        "{\n  \"hooks\": {\n" + (Listed(true, events, entries) + "\n  }\n}\n")
  {
    hide Listed, FreshMembers, RenderMembers, Encoded, Quoted;
    var hooks := Obj("", FreshMembers(events, entries));
    MembersText(events, entries);
    HooksText(Listed(true, events, entries));
    HoldersText(hooks, Render(hooks));
    KeyText();
    hide Render, FreshDocument;
    Whole(Listed(true, events, entries));
  }

  lemma HooksText(inner: string)
    ensures "{" + ("" + (("\n" + (inner + "\n  ")) + "}")) == "{\n" + (inner + "\n  }")
  {
  }

  /** The document around the hooks object. */
  lemma HoldersText(hooks: Value, text: string)
    requires text == Render(hooks)
    ensures RenderDocument(Document("", Obj("", Member("\n  ", Encoded(HooksKey), "", " ", hooks, "\n", NoMember)),
        "\n"))
         == "" + (("{" + ("" + (("\n  " + (Quoted(Encoded(HooksKey)) + ("" + (":" + (" " + (text + ("\n" + "")))))))
           + "}"))) + "\n")
  {
    hide Encoded, Quoted;
    assert RenderMembers(Member("\n  ", Encoded(HooksKey), "", " ", hooks, "\n", NoMember))
        == "\n  " + (Quoted(Encoded(HooksKey)) + ("" + (":" + (" " + (text + ("\n" + ""))))));
  }

  lemma Whole(inner: string)
    ensures "" + (("{" + ("" + (("\n  "
        + ("\"hooks\"" + ("" + (":" + (" " + (("{\n" + (inner + "\n  }")) + ("\n" + ""))))))) + "}"))) + "\n")
         == "{\n  \"hooks\": {\n" + (inner + "\n  }\n}\n")
  {
  }

  lemma KeyText()
    ensures Quoted(Encoded(HooksKey)) == "\"hooks\""
  {
    assert Encoded("") == "";
    assert Encoded("s") == "s";
    assert Encoded("ks") == "ks";
    assert Encoded("oks") == "oks";
    assert Encoded("ooks") == "ooks";
  }

  // ---- what it means ----------------------------------------------------------------------------------------

  function FreshFields(events: seq<string>, entries: seq<Entry>): Fields
    requires |entries| == |events| && ValidEntries(entries)
  {
    seq(|events|, i requires 0 <= i < |events| => (Codes(events[i]), List([Meaning(entries[i].value)])))
  }

  lemma {:induction false} MembersMean(events: seq<string>, entries: seq<Entry>)
    requires |entries| == |events| && ValidEntries(entries)
    ensures WellFormedMembers(FreshMembers(events, entries))
        && Json.Fields(FreshMembers(events, entries)) == FreshFields(events, entries)
    decreases |events|
  {
    hide ValidBody, Decoded, Encoded, FreshArray, WellFormed, Meaning, Codes, Blank;
    if events != [] {
      MembersMean(events[1..], entries[1..]);
      EncodedDecodes(events[0]);
      FreshArrayMeaning(entries[0]);
      Breaks();
      FewBlanks();
      assert FreshFields(events, entries) ==
        [(Codes(events[0]), List([Meaning(entries[0].value)]))] + FreshFields(events[1..], entries[1..]);
    }
  }

  lemma FewBlanks()
    ensures Blank("") && Blank(" ") && Blank("\n    ") && Blank("\n  ") && Blank("\n")
  {
  }

  lemma FreshIsWellFormed(events: seq<string>, entries: seq<Entry>)
    requires |entries| == |events| && ValidEntries(entries)
    ensures WellFormedDocument(FreshDocument(events, entries))
    ensures Meaning(FreshDocument(events, entries).value) == Record([(Hooks, Record(FreshFields(events, entries)))])
  {
    hide ValidBody, Decoded, Encoded, Blank, FreshMembers, FreshFields;
    MembersMean(events, entries);
    EncodedDecodes(HooksKey);
    FewBlanks();
    var hooks := Obj("", FreshMembers(events, entries));
    assert WellFormed(hooks) && Meaning(hooks) == Record(FreshFields(events, entries));
    hide WellFormed;
    OneMemberWellFormed("\n  ", Encoded(HooksKey), hooks, "\n");
    OneField("\n  ", Encoded(HooksKey), hooks, "\n");
  }

  /** The loop over the events. */
  method BuildFreshHookConfig(events: seq<string>, entries: seq<Entry>) returns (text: string)
    requires |entries| == |events| && events != [] && ValidEntries(entries)
    ensures IsText(text, FreshDocument(events, entries))
  {
    hide Listed, FreshMembers, RenderDocument, WellFormed, EventLine, JsonString, EntryText;
    var head, close := "{\n  \"hooks\": {\n", "\n  }\n}\n";
    FreshIsWellFormed(events, entries);
    FreshText(events, entries);
    text := head;
    for i := 0 to |events|
      invariant text + (Listed(i == 0, events[i..], entries[i..]) + close) ==
          head + (Listed(true, events, entries) + close)
    {
      ghost var before := text;
      ListedStep(i == 0, events[i..], entries[i..]);
      assert events[i..][1..] == events[i + 1..] && entries[i..][1..] == entries[i + 1..];
      if i > 0 { text := text + ",\n"; }
      text := text + ("    " + JsonString(events[i]) + ": [\n" + EntryText(entries[i]) + "\n    ]");
      LineWritten(events[i], entries[i]);
      Appended(before, if i == 0 then ""
        else ",\n", EventLine(events[i], entries[i]), Listed(false, events[i + 1..], entries[i + 1..]), close);
    }
    assert events[|events|..] == [] && entries[|events|..] == [];
    NoLines();
    assert text + ("" + close) == text + close;
    text := text + close;
  }

  lemma ListedStep(first: bool, events: seq<string>, entries: seq<Entry>)
    requires |entries| == |events| && events != []
    ensures Listed(first, events, entries) ==
              (if first then "" else ",\n")
                + (EventLine(events[0], entries[0]) + Listed(false, events[1..], entries[1..]))
  {
    hide EventLine;
  }

  lemma LineWritten(event: string, e: Entry)
    ensures "    " + JsonString(event) + ": [\n" + EntryText(e) + "\n    ]" == EventLine(event, e)
  {
  }

  lemma Appended(text: string, comma: string, line: string, rest: string, close: string)
    ensures text + ((comma + (line + rest)) + close) == ((text + comma) + line) + (rest + close)
    ensures text + "" == text
  {
  }

  // ---- every event is registered -----------------------------------------------------------------------------

  lemma FreshEntries(events: seq<string>, entries: seq<Entry>, k: nat)
    requires |entries| == |events| && ValidEntries(entries) && Distinct(events) && k < |events|
    ensures EntriesFor(Record([(Hooks, Record(FreshFields(events, entries)))]), events[k]) ==
        Ok([Meaning(entries[k].value)])
  {
    hide Meaning, WellFormed, Codes;
    var fs := FreshFields(events, entries);
    var root := [(Hooks, Record(fs))];
    LastIndex(root, Hooks);
    assert root[0].0 == Hooks;
    LastIndex(fs, Codes(events[k]));
    assert fs[k].0 == Codes(events[k]);
    forall i | k < i < |fs|
      ensures fs[i].0 != Codes(events[k])
    {
      SameCodes(events[i], events[k]);
    }
  }

  /** In the fresh file an event is registered exactly when its entry names the script; the next run finds nothing to
      do exactly when all of them are. */
  lemma FreshSettles(events: seq<string>, entries: seq<Entry>, aliases: seq<string>)
    requires |entries| == |events| && ValidEntries(entries) && Distinct(events)
    ensures var d := FreshDocument(events, entries);
            && WellFormedDocument(d)
            && (forall k :: 0 <= k < |events| ==> (Registered(d, events[k], aliases) <==> Hits(entries[k], aliases)))
            && (RegisterTree(d, events, entries, aliases) == Ok((d, false)) <==> forall k :: 0 <= k < |events| ==>
              Hits(entries[k], aliases))
  {
    hide RegisterTree, ContainsCommand, EntriesFor, Meaning, WellFormed, FreshDocument, FreshFields;
    FreshIsWellFormed(events, entries);
    var d := FreshDocument(events, entries);
    forall k | 0 <= k < |events|
      ensures Registered(d, events[k], aliases) <==> Hits(entries[k], aliases)
    {
      FreshEntries(events, entries, k);
      var found := [Meaning(entries[k].value)];
      assert found[0] == Meaning(entries[k].value);
    }
    NothingToDo(d, events, entries, aliases);
  }

  /** Where there is no file, a script path without shell-escaped characters settles at once too. */
  lemma FreshPlainPathsSettle(events: seq<string>, entries: seq<Entry>, aliases: seq<string>, display: string)
    requires |entries| == |events| && Distinct(events) && FromTemplates(events, entries, display)
    requires PlainPath(display) && display in aliases
    ensures ValidEntries(entries)
    ensures var d := FreshDocument(events, entries);
            && WellFormedDocument(d) && RegisterTree(d, events, entries, aliases) == Ok((d, false))
            && forall k :: 0 <= k < |events| ==> Registered(d, events[k], aliases)
  {
    hide PlainPath, FromTemplates, RegisterTree, Registered, Hits, FreshDocument, WellFormed;
    TemplatesHit(events, entries, aliases, display);
    FreshSettles(events, entries, aliases);
  }

  /** The whole registration: a missing file is written afresh, an existing one is edited or left alone. */
  method RegisterHookFile(file: Option<string>, decode: string -> Option<Document>, events: seq<string>,
      entries: seq<Entry>, aliases: seq<string>)
    returns (res: Result<(string, bool), RegisterError>)
    requires Decodes(decode) && |entries| == |events| && events != [] && ValidEntries(entries)
    ensures file.None? ==> res.Ok? && res.value.1 && decode(res.value.0) == Some(FreshDocument(events, entries))
    ensures file.Some? ==>
              match decode(file.value)
              case None => res == Err(Malformed)
              case Some(d) =>
                WellFormedDocument(d) &&
                match RegisterTree(d, events, entries, aliases)
                case Err(error) => res == Err(error)
                case Ok((d', changed)) =>
                  res == Ok((RenderDocument(d'), changed)) && (!changed ==> res.value.0 == file.value)
  {
    hide RegisterTree, FreshDocument, RenderDocument, WellFormed;
    if file.None? {
      var content := BuildFreshHookConfig(events, entries);
      return Ok((content, true));
    }
    res := RegisterJsonHooks(file.value, decode, events, entries, aliases);
  }
}

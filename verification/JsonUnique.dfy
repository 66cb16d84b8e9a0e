/** The grammar is unambiguous: a text has at most one tree, so what an edited text "parses to" is well defined. */
module JsonUnique {
  import opened Wrappers
  import opened Json
  import opened JsonScan
  import opened JsonExtents

  lemma SameText(data: string, i: nat, a: string, b: string)
    requires Has(data, i, a) && Has(data, i, b) && |a| == |b|
    ensures a == b
  {
  }

  /** Where an element's value ends, whatever blank or separator follows. */
  lemma EndsAfter(data: string, i: nat, after: string)
    requires Blank(after) && Has(data, i, after) && Ends(data, i + |after|)
    ensures Ends(data, i)
  {
    if after != "" { BlankEnds(data, i, after); }
  }

  lemma OneValue(data: string, i: nat, v: Value, w: Value)
    requires WellFormed(v) && Has(data, i, Render(v)) && Ends(data, i + |Render(v)|)
    requires WellFormed(w) && Has(data, i, Render(w)) && Ends(data, i + |Render(w)|)
    ensures v == w
    decreases v, 1
  {
    hide Has, Blank, Ends, SkipValue, ValidBody, IsAtom;
    ValueSpan(data, i, v);
    ValueSpan(data, i, w);
    SameText(data, i, Render(v), Render(w));
    FirstChar(v);
    FirstChar(w);
    match v {
      case Str(raw) =>
        QuotedSpan(data, i, v.raw);
        QuotedSpan(data, i, w.raw);
      case Atom(_) =>
      case Arr(_, _) => OneArray(data, i, v, w);
      case Obj(_, _) => OneObject(data, i, v, w);
    }
  }

  lemma OneArray(data: string, i: nat, v: Value, w: Value)
    requires v.Arr? && w.Arr? && WellFormed(v) && WellFormed(w)
    requires Has(data, i, Render(v)) && Has(data, i, Render(w)) && |Render(v)| == |Render(w)|
    ensures v == w
    decreases v, 0
  {
    hide Has, Blank, Render, SkipArray;
    ArrayPieces(data, i, v);
    ArrayPieces(data, i, w);
    ArraySpan(data, i, v);
    ArraySpan(data, i, w);
    if v.elems.NoElem? {
      SameText(data, i + 1, v.gap, w.gap);
    } else {
      OneElems(data, i + 1, v.elems, w.elems);
    }
  }

  lemma OneElems(data: string, i: nat, es: Elems, fs: Elems)
    requires es.Elem? && fs.Elem? && WellFormedElems(es) && WellFormedElems(fs)
    requires Has(data, i, RenderElems(es)) && Has(data, i, RenderElems(fs)) && |RenderElems(es)| == |RenderElems(fs)|
    requires i + |RenderElems(es)| < |data| && data[i + |RenderElems(es)|] == ']'
    ensures es == fs
    decreases es
  {
    hide Has, Blank, Render, RenderElems, SkipValue, SkipSpace;
    ElemBounds(data, i, es);
    ElemBounds(data, i, fs);
    SameText(data, i, es.before, fs.before);
    var start := i + |es.before|;
    OneValue(data, start, es.value, fs.value);
    var end := start + |Render(es.value)|;
    SameText(data, end, es.after, fs.after);
    if es.rest.Elem? {
      TailPieces(data, end + |es.after|, es.rest);
      TailPieces(data, end + |es.after|, fs.rest);
      OneElems(data, end + |es.after| + 1, es.rest, fs.rest);
    }
  }

  /** The blanks and the value of the first element, as the parser finds them: none of it depends on the tree. */
  lemma ElemBounds(data: string, i: nat, es: Elems)
    requires es.Elem? && WellFormedElems(es) && Has(data, i, RenderElems(es))
    requires i + |RenderElems(es)| < |data| && data[i + |RenderElems(es)|] == ']'
    ensures var start, end := i + |es.before|, i + |es.before| + |Render(es.value)|;
            && Has(data, i, es.before) && Has(data, start, Render(es.value)) && Has(data, end, es.after)
              && Has(data, end + |es.after|, ElemTail(es.rest))
            && SkipSpace(data, i) == start && SkipValue(data, i) == Some(end)
              && SkipSpace(data, end) == end + |es.after| && Ends(data, end)
            && end + |es.after| < |data| && (es.rest.Elem? <==> data[end + |es.after|] == ',')
            && |RenderElems(es)| == end + |es.after| - i + |ElemTail(es.rest)|
  {
    hide Has, Blank, Render, RenderElems, SkipValue, SkipSpace;
    ElemPieces(data, i, es);
    var start, end := i + |es.before|, i + |es.before| + |Render(es.value)|;
    if es.rest.Elem? { TailPieces(data, end + |es.after|, es.rest); }
    StartsSolid(data, start, es.value);
    BlankSpan(data, i, 0, es.before);
    SkipFrom(data, i, 0, es.before, es.value, es.after);
    EndsAfter(data, end, es.after);
  }

  lemma OneObject(data: string, i: nat, v: Value, w: Value)
    requires v.Obj? && w.Obj? && WellFormed(v) && WellFormed(w)
    requires Has(data, i, Render(v)) && Has(data, i, Render(w)) && |Render(v)| == |Render(w)|
    ensures v == w
    decreases v, 0
  {
    hide Has, Blank, Render, ParseObject, SpansOf;
    ObjectPieces(data, i, v);
    ObjectPieces(data, i, w);
    ObjectSpan(data, i, v);
    ObjectSpan(data, i, w);
    SpansCount(v.members, i + 1);
    SpansCount(w.members, i + 1);
    if v.members.NoMember? {
      SameText(data, i + 1, v.gap, w.gap);
    } else {
      OneMembers(data, i + 1, v.members, w.members);
    }
  }

  lemma SpansCount(ms: Members, i: nat)
    requires WellFormedMembers(ms)
    ensures SpansOf(ms, i) == [] <==> ms.NoMember?
  {
  }

  /** The key, the colon and the blanks before the value of the first member, as the parser finds them. */
  lemma KeyBounds(data: string, i: nat, ms: Members)
    requires ms.Member? && WellFormedMembers(ms) && Has(data, i, RenderMembers(ms))
    ensures var keyStart := i + |ms.before|;
            && SkipSpace(data, i) == keyStart && ScanString(data, keyStart) == Some(keyStart + |Quoted(ms.key)|)
            && SkipSpace(data, keyStart + |Quoted(ms.key)|) == ColonAt(ms, i) && ColonAt(ms, i) < |data|
            && SkipSpace(data, ColonAt(ms, i) + 1) == ValueAt(ms, i)
  {
    hide Has, Blank, Render, RenderMembers, MemberTail, Quoted, SkipSpace, ValidBody, ScanString;
    MemberPieces(data, i, ms);
    QuotedSpan(data, i + |ms.before|, ms.key);
    BlankSpan(data, i, 0, ms.before);
    BlankSpan(data, i + |ms.before| + |Quoted(ms.key)|, 0, ms.mid);
    StartsSolid(data, ValueAt(ms, i), ms.value);
    BlankSpan(data, ColonAt(ms, i) + 1, 0, ms.gap);
  }

  /** Its value and what follows. */
  lemma MemberBounds(data: string, i: nat, ms: Members)
    requires ms.Member? && WellFormedMembers(ms) && Has(data, i, RenderMembers(ms))
    requires i + |RenderMembers(ms)| < |data| && data[i + |RenderMembers(ms)|] == '}'
    ensures var start, end := ValueAt(ms, i), ValueAt(ms, i) + |Render(ms.value)|;
            && end <= |data| && SkipValue(data, start) == Some(end) && SkipSpace(data, end) == end + |ms.after|
              && Ends(data, end)
            && end + |ms.after| < |data| && (ms.rest.Member? <==> data[end + |ms.after|] == ',')
            && i + |RenderMembers(ms)| == end + |ms.after| + |MemberTail(ms.rest)|
  {
    hide Has, Blank, Render, RenderMembers, Quoted, SkipValue, SkipSpace, ValidBody;
    MemberPieces(data, i, ms);
    var start, end := ValueAt(ms, i), ValueAt(ms, i) + |Render(ms.value)|;
    if ms.rest.Member? { MemberTailPieces(data, end + |ms.after|, ms.rest); }
    HasNothing(data, start);
    SkipFrom(data, start, 0, "", ms.value, ms.after);
    EndsAfter(data, end, ms.after);
  }

  lemma OneMembers(data: string, i: nat, ms: Members, ns: Members)
    requires ms.Member? && ns.Member? && WellFormedMembers(ms) && WellFormedMembers(ns)
    requires Has(data, i, RenderMembers(ms)) && Has(data, i, RenderMembers(ns))
        && |RenderMembers(ms)| == |RenderMembers(ns)|
    requires i + |RenderMembers(ms)| < |data| && data[i + |RenderMembers(ms)|] == '}'
    ensures ms == ns
    decreases ms
  {
    hide Has, Blank, Render, RenderMembers, Quoted, SkipValue, SkipSpace, ValidBody, ScanString;
    KeyBounds(data, i, ms);
    KeyBounds(data, i, ns);
    MemberBounds(data, i, ms);
    MemberBounds(data, i, ns);
    MemberPieces(data, i, ms);
    MemberPieces(data, i, ns);
    SameText(data, i, ms.before, ns.before);
    OneKey(data, i + |ms.before|, ms.key, ns.key);
    SameText(data, i + |ms.before| + |Quoted(ms.key)|, ms.mid, ns.mid);
    SameText(data, ColonAt(ms, i) + 1, ms.gap, ns.gap);
    OneValue(data, ValueAt(ms, i), ms.value, ns.value);
    var end := ValueAt(ms, i) + |Render(ms.value)|;
    SameText(data, end, ms.after, ns.after);
    if ms.rest.Member? {
      MemberTailPieces(data, end + |ms.after|, ms.rest);
      MemberTailPieces(data, end + |ms.after|, ns.rest);
      OneMembers(data, end + |ms.after| + 1, ms.rest, ns.rest);
    }
  }

  lemma OneKey(data: string, i: nat, a: string, b: string)
    requires ValidBody(a) && ValidBody(b) && Has(data, i, Quoted(a)) && Has(data, i, Quoted(b))
    ensures a == b
  {
    hide Has, ValidBody;
    QuotedSpan(data, i, a);
    QuotedSpan(data, i, b);
  }

  /** A text is the text of at most one document. */
  lemma Unambiguous(data: string, d: Document, e: Document)
    requires IsText(data, d) && IsText(data, e)
    ensures d == e
  {
    hide Has, Blank, Render, SkipSpace;
    DocumentPieces(data, d);
    DocumentPieces(data, e);
    SameText(data, 0, d.before, e.before);
    OneValue(data, |d.before|, d.value, e.value);
    SameText(data, |d.before| + |Render(d.value)|, d.after, e.after);
  }

  lemma DocumentPieces(data: string, d: Document)
    requires IsText(data, d)
    ensures Has(data, 0, d.before) && Has(data, |d.before|, Render(d.value))
        && Has(data, |d.before| + |Render(d.value)|, d.after)
    ensures SkipSpace(data, 0) == |d.before| && Ends(data, |d.before| + |Render(d.value)|)
        && |data| == |d.before| + |Render(d.value)| + |d.after|
  {
    hide Has, Blank, Render, SkipSpace;
    HasAll(data);
    HasParts(data, 0, d.before, Render(d.value) + d.after);
    HasParts(data, |d.before|, Render(d.value), d.after);
    StartsSolid(data, |d.before|, d.value);
    BlankSpan(data, 0, 0, d.before);
    EndsAfter(data, |d.before| + |Render(d.value)|, d.after);
  }
}

/** Rewriting one language of a list of localized entries from the text of an edit box, as
    the post editor does for tags and the class editor for objectives and prerequisites. */
module LocalizedLists {
  import opened Types
  import opened JsString
  import ContentActions

  /** The list after one language was edited: one entry per piece, piece `i` as entry `i`'s
      text in `lang`; entries beyond the old list start empty in the other languages, and
      entries beyond the pieces are dropped. */
  function Rewrite(list: seq<Loc>, lang: Language, pieces: seq<string>): (r: seq<Loc>)
    ensures |r| == |pieces|
    ensures forall i :: 0 <= i < |r| ==> r[i].Get(lang) == pieces[i]
    ensures forall i, other: Language :: 0 <= i < |r| && i < |list| && other != lang ==> r[i].Get(other) == list[i].Get(other)
    ensures forall i, other: Language :: |list| <= i < |r| && other != lang ==> r[i].Get(other) == ""
  {
    seq(|pieces|, i requires 0 <= i < |pieces| => (if i < |list| then list[i] else EmptyLoc).With(lang, pieces[i]))
  }

  /** Entry `j` of `Rewrite(list, lang, pieces)`. */
  function RewrittenEntry(list: seq<Loc>, lang: Language, pieces: seq<string>, j: nat): Loc
    requires j < |pieces|
  {
    (if j < |list| then list[j] else EmptyLoc).With(lang, pieces[j])
  }

  lemma RewriteByEntries(list: seq<Loc>, lang: Language, pieces: seq<string>, r: seq<Loc>)
    requires |r| == |pieces|
    requires forall j :: 0 <= j < |r| ==> r[j] == RewrittenEntry(list, lang, pieces, j)
    ensures r == Rewrite(list, lang, pieces)
  {
  }

  /** The loop both editors run: piece `index` overwrites entry `index` in `lang`, or is
      pushed as a new entry; the list is then cut to the number of pieces. */
  method ApplyPieces(list: seq<Loc>, lang: Language, pieces: seq<string>) returns (result: seq<Loc>)
    ensures result == Rewrite(list, lang, pieces)
  {
    result := list;
    for index := 0 to |pieces|
      invariant |result| == if index <= |list| then |list| else index
      invariant forall j :: 0 <= j < index ==> result[j] == RewrittenEntry(list, lang, pieces, j)
      invariant forall j :: index <= j < |result| ==> result[j] == list[j]
    {
      if index < |result| {
        result := result[index := result[index].With(lang, pieces[index])];
      } else {
        result := result + [EmptyLoc.With(lang, pieces[index])];
      }
    }
    result := result[..|pieces|];
    RewriteByEntries(list, lang, pieces, result);
  }

  /** Writing back a language's own texts leaves the list as it was. */
  lemma RewriteOwnColumn(list: seq<Loc>, lang: Language)
    ensures Rewrite(list, lang, ContentActions.Column(list, lang)) == list
  {
    var r := Rewrite(list, lang, ContentActions.Column(list, lang));
    forall i | 0 <= i < |list|
      ensures r[i] == list[i]
    {
      WithGetRoundTrip(list[i], lang, list[i].Get(lang));
      match lang
      case En =>
      case De =>
      case Fa =>
    }
  }

  /** The pieces of `parts.join(', ').split(',')`: the first part, then each later part behind
      the space of the separator. */
  function Spaced(parts: seq<string>): (r: seq<string>)
    requires |parts| >= 1
    ensures |r| == |parts| && r[0] == parts[0]
    ensures forall i :: 1 <= i < |parts| ==> r[i] == " " + parts[i]
  {
    if |parts| == 1 then parts
    else
      var rest := Spaced(parts[1..]);
      assert forall i :: 2 <= i < |parts| ==> rest[i - 1] == " " + parts[i];
      [parts[0]] + ([[' '] + rest[0]] + rest[1..])
  }

  lemma JoinCommaSpaceStep(parts: seq<string>)
    requires |parts| >= 2
    ensures Join(parts, ", ") == parts[0] + [','] + ([' '] + Join(parts[1..], ", "))
  {
  }

  lemma SplitLeadingSpace(tail: string)
    ensures Split([' '] + tail, ',') == [[' '] + Split(tail, ',')[0]] + Split(tail, ',')[1..]
  {
    assert ([' '] + tail)[1..] == tail;
  }

  lemma {:induction false} SplitCommaSpaceJoin(parts: seq<string>)
    requires |parts| >= 1
    requires forall i :: 0 <= i < |parts| ==> ',' !in parts[i]
    ensures Split(Join(parts, ", "), ',') == Spaced(parts)
  {
    if |parts| == 1 {
      SplitNoSep(parts[0], ',');
    } else {
      var tail := Join(parts[1..], ", ");
      SplitCommaSpaceJoin(parts[1..]);
      JoinCommaSpaceStep(parts);
      SplitPrefix(parts[0], [' '] + tail, ',');
      SplitLeadingSpace(tail);
    }
  }

  /** A space in front of a trimmed text is trimmed away. */
  lemma TrimSpaced(p: string)
    requires IsTrimmed(p)
    ensures Trim(" " + p) == p
  {
    assert (" " + p)[1..] == p;
    assert TrimStart(" " + p) == TrimStart(p);
    TrimTrimmed(p);
  }

  /** The tags box shows `tags.map(t => t[lang]).join(', ')`. */
  function TagsText(tags: seq<Loc>, lang: Language): string {
    Join(ContentActions.Column(tags, lang), ", ")
  }

  /** The pieces the tags box hands over: `value.split(',').map(t => t.trim())`, empty
      pieces kept. */
  function TagPieces(value: string): (r: seq<string>)
    ensures |r| >= 1
  {
    ContentActions.TrimAll(Split(value, ','))
  }

  /** Trimming the pieces of `parts.join(', ').split(',')` gives the parts back, when there
      is a part and no part holds a comma or surrounding whitespace. */
  lemma TagPiecesOfJoin(parts: seq<string>)
    requires |parts| >= 1
    requires forall i :: 0 <= i < |parts| ==> ',' !in parts[i] && IsTrimmed(parts[i])
    ensures TagPieces(Join(parts, ", ")) == parts
  {
    SplitCommaSpaceJoin(parts);
    var pieces := TagPieces(Join(parts, ", "));
    forall i | 0 <= i < |parts|
      ensures pieces[i] == parts[i]
    {
      if i == 0 {
        TrimTrimmed(parts[0]);
      } else {
        TrimSpaced(parts[i]);
      }
    }
    assert pieces == parts;
  }

  /** Typing back the displayed tags changes nothing, when there is a tag and no tag text
      holds a comma or surrounding whitespace. */
  lemma TagsRoundTrip(tags: seq<Loc>, lang: Language)
    requires |tags| >= 1
    requires forall i :: 0 <= i < |tags| ==> ',' !in tags[i].Get(lang) && IsTrimmed(tags[i].Get(lang))
    ensures Rewrite(tags, lang, TagPieces(TagsText(tags, lang))) == tags
  {
    var column := ContentActions.Column(tags, lang);
    assert TagPieces(TagsText(tags, lang)) == column by {
      TagPiecesOfJoin(column);
    }
    RewriteOwnColumn(tags, lang);
  }

  /** An emptied tags box still leaves one tag, empty in the edited language. */
  lemma EmptyTagsBoxKeepsOneTag(tags: seq<Loc>, lang: Language)
    ensures |Rewrite(tags, lang, TagPieces(""))| == 1
    ensures Rewrite(tags, lang, TagPieces(""))[0].Get(lang) == ""
  {
  }

  /** The objectives and prerequisites boxes show `list.map(o => o[lang] || '').join('\n')`. */
  function LinesText(list: seq<Loc>, lang: Language): string {
    Join(ContentActions.Column(list, lang), "\n")
  }

  /** Typing back the displayed lines changes nothing, when there is an entry and no entry
      holds a line break. Lines are neither trimmed nor dropped when empty. */
  lemma LinesRoundTrip(list: seq<Loc>, lang: Language)
    requires |list| >= 1
    requires forall i :: 0 <= i < |list| ==> '\n' !in list[i].Get(lang)
    ensures Rewrite(list, lang, Split(LinesText(list, lang), '\n')) == list
  {
    SplitJoin(ContentActions.Column(list, lang), '\n');
    RewriteOwnColumn(list, lang);
  }
}

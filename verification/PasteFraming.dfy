/** Pasting into a terminal: sanitizeForInjection and bracketedPaste of terminal.ts. */
module PasteFraming {
  import opened Wrappers

  const Esc: char := '\U{1b}'
  const PasteStart: string := [Esc, '[', '2', '0', '0', '~']
  const PasteEnd: string := [Esc, '[', '2', '0', '1', '~']

  predicate StartsWith(s: string, prefix: string) {
    |prefix| <= |s| && s[..|prefix|] == prefix
  }

  /** Every marker removed, in one pass from the left. */
  function StripMarkers(s: string): string {
    if s == "" then ""
    else if StartsWith(s, PasteStart) || StartsWith(s, PasteEnd) then StripMarkers(s[6..])
    else [s[0]] + StripMarkers(s[1..])
  }

  /** Control characters other than tab and newline, and delete. */
  predicate IsControl(c: char) {
    c as int <= 0x08 || 0x0b <= c as int <= 0x1f || c as int == 0x7f
  }

  function StripControls(s: string): string {
    if s == "" then "" else (if IsControl(s[0]) then "" else [s[0]]) + StripControls(s[1..])
  }

  function Sanitize(s: string): string {
    StripControls(StripMarkers(s))
  }

  function BracketedPaste(s: string): string {
    PasteStart + s + PasteEnd
  }

  predicate Clean(s: string) {
    forall i :: 0 <= i < |s| ==> !IsControl(s[i])
  }

  lemma {:induction false} StripControlsIsClean(s: string)
    ensures Clean(StripControls(s))
  {
    if s != "" { StripControlsIsClean(s[1..]); }
  }

  lemma MarkersStartWithEsc(s: string)
    ensures StartsWith(s, PasteStart) || StartsWith(s, PasteEnd) ==> s[0] == Esc
  {
    assert |s| >= 6 ==> s[..6][0] == s[0];
  }

  lemma {:induction false} CleanIsKept(s: string)
    requires Clean(s)
    ensures StripControls(s) == s && StripMarkers(s) == s
  {
    if s != "" {
      MarkersStartWithEsc(s);
      CleanIsKept(s[1..]);
    }
  }

  /** Text is passed through unchanged exactly when it holds no control character. */
  lemma SanitizeKeepsExactlyCleanText(s: string)
    ensures Sanitize(s) == s <==> Clean(s)
    ensures Sanitize(Sanitize(s)) == Sanitize(s)
  {
    StripControlsIsClean(StripMarkers(s));
    CleanIsKept(Sanitize(s));
    if Clean(s) { CleanIsKept(s); }
  }

  /** A terminal program's reading of a paste: all up to the first end marker. */
  function UpToEnd(s: string): Option<(string, string)> {
    if StartsWith(s, PasteEnd) then Some(("", s[6..]))
    else if s == "" then None
    else match UpToEnd(s[1..])
      case None => None
      case Some((text, rest)) => Some(([s[0]] + text, rest))
  }

  function ReadPaste(s: string): Option<(string, string)> {
    if StartsWith(s, PasteStart) then UpToEnd(s[6..]) else None
  }

  lemma {:induction false} ReadsCleanText(s: string, rest: string)
    requires Clean(s)
    ensures UpToEnd(s + PasteEnd + rest) == Some((s, rest))
  {
    var all := s + PasteEnd + rest;
    if s == "" {
      assert all[..6] == PasteEnd && all[6..] == rest;
    } else {
      MarkersStartWithEsc(all);
      ReadsCleanText(s[1..], rest);
      assert all[0] == s[0] && all[1..] == s[1..] + PasteEnd + rest;
      assert [s[0]] + s[1..] == s;
    }
  }

  /** Whatever the text, its paste is read back as the sanitized text: it cannot break out early. */
  lemma PasteIsReadWhole(text: string, rest: string)
    ensures ReadPaste(BracketedPaste(Sanitize(text)) + rest) == Some((Sanitize(text), rest))
  {
    var s := Sanitize(text);
    var all := BracketedPaste(s) + rest;
    StripControlsIsClean(StripMarkers(text));
    ReadsCleanText(s, rest);
    assert all[..6] == PasteStart && all[6..] == s + PasteEnd + rest;
  }

  /** The characters taken out, written out: all below space but tab and newline, and delete. */
  lemma ControlsAre(c: char)
    ensures IsControl(c) <==> (c < ' ' && c != '\t' && c != '\n') || c == '\U{7f}'
  {
  }

  lemma {:induction false} CleanPrefix(a: string, b: string)
    requires Clean(a)
    ensures Sanitize(a + b) == a + Sanitize(b)
  {
    if a == "" {
      assert a + b == b;
    } else {
      var all := a + b;
      MarkersStartWithEsc(all);
      assert all[0] == a[0] && all[1..] == a[1..] + b;
      CleanPrefix(a[1..], b);
      assert StripMarkers(all) == [a[0]] + StripMarkers(all[1..]);
      assert ([a[0]] + StripMarkers(all[1..]))[1..] == StripMarkers(all[1..]);
      assert [a[0]] + (a[1..] + Sanitize(b)) == a + Sanitize(b);
    }
  }

  /** A paste marker embedded in the text goes whole: nothing of it is left behind. */
  lemma EmbeddedMarkersVanish(a: string, b: string)
    requires Clean(a)
    ensures Sanitize(a + (PasteStart + b)) == a + Sanitize(b)
    ensures Sanitize(a + (PasteEnd + b)) == a + Sanitize(b)
  {
    CleanPrefix(a, PasteStart + b);
    CleanPrefix(a, PasteEnd + b);
    assert (PasteStart + b)[..6] == PasteStart && (PasteStart + b)[6..] == b;
    assert (PasteEnd + b)[..6] == PasteEnd && (PasteEnd + b)[6..] == b;
  }
}

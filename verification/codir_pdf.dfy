/**
 * Text clean-up of the quarterly CODIR PDF (rapport_codir.py): `_safe`, which
 * turns exotic spaces into ASCII spaces and, when only a core PDF font is
 * available, replaces what Latin-1 cannot encode; and the whitespace collapse
 * applied to the synthesis paragraph. The module flag `use_core_font` is a
 * parameter here.
 */
module CodirPdf {
  import opened Wrappers
  import opened PyText

  const NoBreakSpace: char := '\U{A0}'
  const NarrowNoBreakSpace: char := '\U{202F}'
  const ThinSpace: char := '\U{2009}'

  predicate IsExoticSpace(c: char) {
    c == NoBreakSpace || c == NarrowNoBreakSpace || c == ThinSpace
  }

  /** Python's `s.replace(from, to)` for one-character `from` and `to`. */
  function ReplaceChar(s: string, from: char, to: char): (r: string)
    ensures |r| == |s|
    ensures forall i :: 0 <= i < |s| ==> r[i] == if s[i] == from then to else s[i]
  {
    if s == [] then []
    else [if s[0] == from then to else s[0]] + ReplaceChar(s[1..], from, to)
  }

  /**
   * `s.encode("latin-1", "replace").decode("latin-1")`: every character above
   * code point 255 becomes `?`.
   */
  function Latin1Replace(s: string): (r: string)
    ensures |r| == |s|
    ensures forall i :: 0 <= i < |s| ==> r[i] == if s[i] as int <= 255 then s[i] else '?'
  {
    if s == [] then []
    else [if s[0] as int <= 255 then s[0] else '?'] + Latin1Replace(s[1..])
  }

  /** What `_safe` makes of one character of its input. */
  function SafeChar(c: char, useCoreFont: bool): char {
    if IsExoticSpace(c) then ' '
    else if useCoreFont && c as int > 255 then '?'
    else c
  }

  /**
   * `_safe(txt)`. `None` and `""` give `""`. The `try`/`except` around the
   * Latin-1 round trip can never fire: encoding with "replace" does not fail.
   */
  function Safe(txt: Option<string>, useCoreFont: bool): (r: string)
    ensures |r| == |txt.GetOr("")|
    ensures forall i :: 0 <= i < |r| ==> r[i] == SafeChar(txt.GetOr("")[i], useCoreFont)
    ensures forall i :: 0 <= i < |r| ==> !IsExoticSpace(r[i])
  {
    var t := ReplaceChar(ReplaceChar(ReplaceChar(txt.GetOr(""), NoBreakSpace, ' '), NarrowNoBreakSpace, ' '), ThinSpace, ' ');
    if useCoreFont then Latin1Replace(t) else t
  }

  /** `None` or the empty string gives the empty string. */
  lemma SafeOfNothing(useCoreFont: bool)
    ensures Safe(None, useCoreFont) == ""
    ensures Safe(Some(""), useCoreFont) == ""
  {
  }

  /** Without the core font, `_safe` only replaces the three exotic spaces. */
  lemma SafeUnicodeFont(txt: string, i: nat)
    requires i < |txt|
    ensures |Safe(Some(txt), false)| == |txt|
    ensures Safe(Some(txt), false)[i] == if IsExoticSpace(txt[i]) then ' ' else txt[i]
  {
  }

  /** With the core font, every character above 255 becomes `?` and Latin-1 survives. */
  lemma SafeCoreFont(txt: string, i: nat)
    requires i < |txt|
    ensures |Safe(Some(txt), true)| == |txt|
    ensures txt[i] as int <= 255 && txt[i] != NoBreakSpace ==> Safe(Some(txt), true)[i] == txt[i]
    ensures txt[i] as int > 255 && !IsExoticSpace(txt[i]) ==> Safe(Some(txt), true)[i] == '?'
    ensures Safe(Some(txt), true)[i] as int <= 255
  {
  }

  /** `_safe` is idempotent. */
  lemma SafeIdempotent(txt: Option<string>, useCoreFont: bool)
    ensures Safe(Some(Safe(txt, useCoreFont)), useCoreFont) == Safe(txt, useCoreFont)
  {
    var once := Safe(txt, useCoreFont);
    var twice := Safe(Some(once), useCoreFont);
    forall i | 0 <= i < |once| ensures twice[i] == once[i] {
      assert twice[i] == SafeChar(once[i], useCoreFont);
    }
  }

  /**
   * Line 146: `" ".join(_safe(synthese_codir).split())`. The result is
   * collapsed (no leading, trailing or doubled whitespace) and holds the same
   * words, in the same order, as the sanitised synthesis.
   */
  function CollapseSynthesis(synthesis: Option<string>, useCoreFont: bool): (r: string)
    ensures Collapsed(r)
    ensures Words(r) == Words(Safe(synthesis, useCoreFont))
  {
    var ws := Words(Safe(synthesis, useCoreFont));
    JoinCollapsed(ws);
    WordsOfJoin(ws);
    JoinWords(ws)
  }
}

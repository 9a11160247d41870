/**
 * The colour theme of skim's UI (src/skim/theme.rs): the default theme, the
 * parser for colour options such as "fg:1,hl:#ff0000,bg+:236", and the
 * attribute accessors the renderer asks for.
 */
module Theme {
  import opened Wrappers
  import opened Bytes

  /** A terminal colour: the terminal's default, a 256-colour palette entry, or 24-bit RGB. */
  datatype Color = Default | AnsiValue(index: u8) | Rgb(r: u8, g: u8, b: u8)

  // The named colours of the terminal library are palette entries.
  const GREEN: Color := AnsiValue(2)
  const YELLOW: Color := AnsiValue(3)
  const CYAN: Color := AnsiValue(6)

  /** One text effect; an `Effect` is a set of them (a bit set in the terminal library). */
  datatype EffectFlag = Bold | Dim | Underline | Blink | Reverse
  type Effect = set<EffectFlag>

  const NO_EFFECT: Effect := {}
  const BOLD: Effect := {Bold}
  const DIM: Effect := {Dim}

  /** What the renderer draws a piece of the UI with. */
  datatype Attr = Attr(fg: Color, bg: Color, effect: Effect)

  /** The seventeen colour fields of a theme, one per place a colour option can write. */
  datatype ColorField =
    | Fg | Bg | Matched | MatchedBg | Current | CurrentBg | CurrentMatch | CurrentMatchBg
    | QueryFg | QueryBg | Spinner | Info | Prompt | Cursor | Selected | Header | Border

  const ALL_FIELDS: seq<ColorField> :=
    [Fg, Bg, Matched, MatchedBg, Current, CurrentBg, CurrentMatch, CurrentMatchBg,
     QueryFg, QueryBg, Spinner, Info, Prompt, Cursor, Selected, Header, Border]

  datatype ColorTheme = ColorTheme(
    fg: Color,
    bg: Color,
    normalEffect: Effect,
    matched: Color,
    matchedBg: Color,
    matchedEffect: Effect,
    current: Color,
    currentBg: Color,
    currentEffect: Effect,
    currentMatch: Color,
    currentMatchBg: Color,
    currentMatchEffect: Effect,
    queryFg: Color,
    queryBg: Color,
    queryEffect: Effect,
    spinner: Color,
    info: Color,
    prompt: Color,
    cursor: Color,
    selected: Color,
    header: Color,
    border: Color)
  {
    // The attributes handed to the renderer, each stated in terms of the
    // colour fields the option keys write.

    function Normal(): (a: Attr)
      ensures a.fg == ColorOf(this, Fg) && a.bg == ColorOf(this, Bg) && a.effect == normalEffect
    {
      Attr(fg, bg, normalEffect)
    }

    function MatchedAttr(): (a: Attr)
      ensures a.fg == ColorOf(this, Matched) && a.bg == ColorOf(this, MatchedBg) && a.effect == matchedEffect
    {
      Attr(matched, matchedBg, matchedEffect)
    }

    function CurrentAttr(): (a: Attr)
      ensures a.fg == ColorOf(this, Current) && a.bg == ColorOf(this, CurrentBg) && a.effect == currentEffect
    {
      Attr(current, currentBg, currentEffect)
    }

    function CurrentMatchAttr(): (a: Attr)
      ensures a.fg == ColorOf(this, CurrentMatch) && a.bg == ColorOf(this, CurrentMatchBg)
      ensures a.effect == currentMatchEffect
    {
      Attr(currentMatch, currentMatchBg, currentMatchEffect)
    }

    function Query(): (a: Attr)
      ensures a.fg == ColorOf(this, QueryFg) && a.bg == ColorOf(this, QueryBg) && a.effect == queryEffect
    {
      Attr(queryFg, queryBg, queryEffect)
    }

    function SpinnerAttr(): (a: Attr)
      ensures a.fg == ColorOf(this, Spinner) && a.bg == ColorOf(this, Bg) && a.effect == BOLD
    {
      Attr(spinner, bg, BOLD)
    }

    function InfoAttr(): (a: Attr)
      ensures a.fg == ColorOf(this, Info) && a.bg == ColorOf(this, Bg) && a.effect == NO_EFFECT
    {
      Attr(info, bg, NO_EFFECT)
    }

    function PromptAttr(): (a: Attr)
      ensures a.fg == ColorOf(this, Prompt) && a.bg == ColorOf(this, Bg) && a.effect == NO_EFFECT
    {
      Attr(prompt, bg, NO_EFFECT)
    }

    function CursorAttr(): (a: Attr)
      ensures a.fg == ColorOf(this, Cursor) && a.bg == ColorOf(this, CurrentBg) && a.effect == NO_EFFECT
    {
      Attr(cursor, currentBg, NO_EFFECT)
    }

    function SelectedAttr(): (a: Attr)
      ensures a.fg == ColorOf(this, Selected) && a.bg == ColorOf(this, CurrentBg) && a.effect == NO_EFFECT
    {
      Attr(selected, currentBg, NO_EFFECT)
    }

    function HeaderAttr(): (a: Attr)
      ensures a.fg == ColorOf(this, Header) && a.bg == ColorOf(this, Bg) && a.effect == NO_EFFECT
    {
      Attr(header, bg, NO_EFFECT)
    }

    function BorderAttr(): (a: Attr)
      ensures a.fg == ColorOf(this, Border) && a.bg == ColorOf(this, Bg) && a.effect == NO_EFFECT
    {
      Attr(border, bg, NO_EFFECT)
    }
  }

  /** `ColorTheme::empty`: every colour the terminal default, every effect empty. */
  function EmptyTheme(): (t: ColorTheme)
    ensures forall f :: ColorOf(t, f) == Default
    ensures t.normalEffect == t.matchedEffect == t.currentEffect == NO_EFFECT
    ensures t.currentMatchEffect == t.queryEffect == NO_EFFECT
  {
    ColorTheme(Default, Default, NO_EFFECT, Default, Default, NO_EFFECT, Default, Default, NO_EFFECT,
               Default, Default, NO_EFFECT, Default, Default, NO_EFFECT,
               Default, Default, Default, Default, Default, Default, Default)
  }

  /**
   * `ColorTheme::default`: the empty theme with four colours set, DIM normal
   * text and a BOLD current line.
   */
  function DefaultTheme(): (t: ColorTheme)
    ensures forall f :: ColorOf(t, f) == DefaultColor(f)
    ensures t.normalEffect == DIM && t.currentEffect == BOLD
    ensures t.matchedEffect == t.currentMatchEffect == t.queryEffect == NO_EFFECT
  {
    EmptyTheme().(normalEffect := DIM, matched := CYAN, currentEffect := BOLD,
                  currentMatch := CYAN, info := YELLOW, cursor := GREEN)
  }

  /** The colour a theme holds in field `f`. */
  function ColorOf(t: ColorTheme, f: ColorField): Color {
    match f
    case Fg => t.fg
    case Bg => t.bg
    case Matched => t.matched
    case MatchedBg => t.matchedBg
    case Current => t.current
    case CurrentBg => t.currentBg
    case CurrentMatch => t.currentMatch
    case CurrentMatchBg => t.currentMatchBg
    case QueryFg => t.queryFg
    case QueryBg => t.queryBg
    case Spinner => t.spinner
    case Info => t.info
    case Prompt => t.prompt
    case Cursor => t.cursor
    case Selected => t.selected
    case Header => t.header
    case Border => t.border
  }

  /** The two themes carry the same five effects. */
  predicate SameEffects(t: ColorTheme, u: ColorTheme) {
    && t.normalEffect == u.normalEffect
    && t.matchedEffect == u.matchedEffect
    && t.currentEffect == u.currentEffect
    && t.currentMatchEffect == u.currentMatchEffect
    && t.queryEffect == u.queryEffect
  }

  /** `t` with colour field `f` set to `c`: exactly that field changes. */
  function WithColor(t: ColorTheme, f: ColorField, c: Color): (u: ColorTheme)
    ensures ColorOf(u, f) == c
    ensures forall g :: g != f ==> ColorOf(u, g) == ColorOf(t, g)
    ensures SameEffects(t, u)
  {
    match f
    case Fg => t.(fg := c)
    case Bg => t.(bg := c)
    case Matched => t.(matched := c)
    case MatchedBg => t.(matchedBg := c)
    case Current => t.(current := c)
    case CurrentBg => t.(currentBg := c)
    case CurrentMatch => t.(currentMatch := c)
    case CurrentMatchBg => t.(currentMatchBg := c)
    case QueryFg => t.(queryFg := c)
    case QueryBg => t.(queryBg := c)
    case Spinner => t.(spinner := c)
    case Info => t.(info := c)
    case Prompt => t.(prompt := c)
    case Cursor => t.(cursor := c)
    case Selected => t.(selected := c)
    case Header => t.(header := c)
    case Border => t.(border := c)
  }

  /** Two themes that agree on every colour field and every effect are equal. */
  lemma ThemeEquality(t: ColorTheme, u: ColorTheme)
    requires forall f :: ColorOf(t, f) == ColorOf(u, f)
    requires SameEffects(t, u)
    ensures t == u
  {
    assert t.fg == u.fg by { assert ColorOf(t, Fg) == ColorOf(u, Fg); }
    assert t.bg == u.bg by { assert ColorOf(t, Bg) == ColorOf(u, Bg); }
    assert t.matched == u.matched by { assert ColorOf(t, Matched) == ColorOf(u, Matched); }
    assert t.matchedBg == u.matchedBg by { assert ColorOf(t, MatchedBg) == ColorOf(u, MatchedBg); }
    assert t.current == u.current by { assert ColorOf(t, Current) == ColorOf(u, Current); }
    assert t.currentBg == u.currentBg by { assert ColorOf(t, CurrentBg) == ColorOf(u, CurrentBg); }
    assert t.currentMatch == u.currentMatch by { assert ColorOf(t, CurrentMatch) == ColorOf(u, CurrentMatch); }
    assert t.currentMatchBg == u.currentMatchBg by { assert ColorOf(t, CurrentMatchBg) == ColorOf(u, CurrentMatchBg); }
    assert t.queryFg == u.queryFg by { assert ColorOf(t, QueryFg) == ColorOf(u, QueryFg); }
    assert t.queryBg == u.queryBg by { assert ColorOf(t, QueryBg) == ColorOf(u, QueryBg); }
    assert t.spinner == u.spinner by { assert ColorOf(t, Spinner) == ColorOf(u, Spinner); }
    assert t.info == u.info by { assert ColorOf(t, Info) == ColorOf(u, Info); }
    assert t.prompt == u.prompt by { assert ColorOf(t, Prompt) == ColorOf(u, Prompt); }
    assert t.cursor == u.cursor by { assert ColorOf(t, Cursor) == ColorOf(u, Cursor); }
    assert t.selected == u.selected by { assert ColorOf(t, Selected) == ColorOf(u, Selected); }
    assert t.header == u.header by { assert ColorOf(t, Header) == ColorOf(u, Header); }
    assert t.border == u.border by { assert ColorOf(t, Border) == ColorOf(u, Border); }
  }

  // ---------------------------------------------------------------------------
  // The keyword table; keys are byte strings, spelled out in the comments.

  const KEY_FG: seq<u8> := [0x66, 0x67]  // "fg"
  const KEY_BG: seq<u8> := [0x62, 0x67]  // "bg"
  const KEY_MATCHED: seq<u8> := [0x6d, 0x61, 0x74, 0x63, 0x68, 0x65, 0x64]  // "matched"
  const KEY_HL: seq<u8> := [0x68, 0x6c]  // "hl"
  const KEY_MATCHED_BG: seq<u8> := [0x6d, 0x61, 0x74, 0x63, 0x68, 0x65, 0x64, 0x5f, 0x62, 0x67]  // "matched_bg"
  const KEY_CURRENT: seq<u8> := [0x63, 0x75, 0x72, 0x72, 0x65, 0x6e, 0x74]  // "current"
  const KEY_FG_PLUS: seq<u8> := [0x66, 0x67, 0x2b]  // "fg+"
  const KEY_CURRENT_BG: seq<u8> := [0x63, 0x75, 0x72, 0x72, 0x65, 0x6e, 0x74, 0x5f, 0x62, 0x67]  // "current_bg"
  const KEY_BG_PLUS: seq<u8> := [0x62, 0x67, 0x2b]  // "bg+"
  const KEY_CURRENT_MATCH: seq<u8> := [0x63, 0x75, 0x72, 0x72, 0x65, 0x6e, 0x74, 0x5f, 0x6d, 0x61, 0x74, 0x63, 0x68]  // "current_match"
  const KEY_HL_PLUS: seq<u8> := [0x68, 0x6c, 0x2b]  // "hl+"
  const KEY_CURRENT_MATCH_BG: seq<u8> := [0x63, 0x75, 0x72, 0x72, 0x65, 0x6e, 0x74, 0x5f, 0x6d, 0x61, 0x74, 0x63, 0x68, 0x5f, 0x62, 0x67]  // "current_match_bg"
  const KEY_QUERY: seq<u8> := [0x71, 0x75, 0x65, 0x72, 0x79]  // "query"
  const KEY_QUERY_BG: seq<u8> := [0x71, 0x75, 0x65, 0x72, 0x79, 0x5f, 0x62, 0x67]  // "query_bg"
  const KEY_SPINNER: seq<u8> := [0x73, 0x70, 0x69, 0x6e, 0x6e, 0x65, 0x72]  // "spinner"
  const KEY_INFO: seq<u8> := [0x69, 0x6e, 0x66, 0x6f]  // "info"
  const KEY_PROMPT: seq<u8> := [0x70, 0x72, 0x6f, 0x6d, 0x70, 0x74]  // "prompt"
  const KEY_CURSOR: seq<u8> := [0x63, 0x75, 0x72, 0x73, 0x6f, 0x72]  // "cursor"
  const KEY_POINTER: seq<u8> := [0x70, 0x6f, 0x69, 0x6e, 0x74, 0x65, 0x72]  // "pointer"
  const KEY_SELECTED: seq<u8> := [0x73, 0x65, 0x6c, 0x65, 0x63, 0x74, 0x65, 0x64]  // "selected"
  const KEY_MARKER: seq<u8> := [0x6d, 0x61, 0x72, 0x6b, 0x65, 0x72]  // "marker"
  const KEY_HEADER: seq<u8> := [0x68, 0x65, 0x61, 0x64, 0x65, 0x72]  // "header"
  const KEY_BORDER: seq<u8> := [0x62, 0x6f, 0x72, 0x64, 0x65, 0x72]  // "border"

  /** The field a colour option key writes, following the source's match with its aliases. */
  function KeyField(key: seq<u8>): (field: Option<ColorField>)
    ensures field.Some? ==> key in KeysOf(field.value)
  {
    if key == KEY_FG then Some(Fg)
    else if key == KEY_BG then Some(Bg)
    else if key == KEY_MATCHED || key == KEY_HL then Some(Matched)
    else if key == KEY_MATCHED_BG then Some(MatchedBg)
    else if key == KEY_CURRENT || key == KEY_FG_PLUS then Some(Current)
    else if key == KEY_CURRENT_BG || key == KEY_BG_PLUS then Some(CurrentBg)
    else if key == KEY_CURRENT_MATCH || key == KEY_HL_PLUS then Some(CurrentMatch)
    else if key == KEY_CURRENT_MATCH_BG then Some(CurrentMatchBg)
    else if key == KEY_QUERY then Some(QueryFg)
    else if key == KEY_QUERY_BG then Some(QueryBg)
    else if key == KEY_SPINNER then Some(Spinner)
    else if key == KEY_INFO then Some(Info)
    else if key == KEY_PROMPT then Some(Prompt)
    else if key == KEY_CURSOR || key == KEY_POINTER then Some(Cursor)
    else if key == KEY_SELECTED || key == KEY_MARKER then Some(Selected)
    else if key == KEY_HEADER then Some(Header)
    else if key == KEY_BORDER then Some(Border)
    else None
  }

  /** The first key the table lists for each field. */
  function CanonicalKey(f: ColorField): seq<u8> {
    match f
    case Fg => KEY_FG
    case Bg => KEY_BG
    case Matched => KEY_MATCHED
    case MatchedBg => KEY_MATCHED_BG
    case Current => KEY_CURRENT
    case CurrentBg => KEY_CURRENT_BG
    case CurrentMatch => KEY_CURRENT_MATCH
    case CurrentMatchBg => KEY_CURRENT_MATCH_BG
    case QueryFg => KEY_QUERY
    case QueryBg => KEY_QUERY_BG
    case Spinner => KEY_SPINNER
    case Info => KEY_INFO
    case Prompt => KEY_PROMPT
    case Cursor => KEY_CURSOR
    case Selected => KEY_SELECTED
    case Header => KEY_HEADER
    case Border => KEY_BORDER
  }

  /** Every key that writes field `f`: the canonical key and, for six fields, an alias. */
  function KeysOf(f: ColorField): set<seq<u8>> {
    match f
    case Matched => {KEY_MATCHED, KEY_HL}
    case Current => {KEY_CURRENT, KEY_FG_PLUS}
    case CurrentBg => {KEY_CURRENT_BG, KEY_BG_PLUS}
    case CurrentMatch => {KEY_CURRENT_MATCH, KEY_HL_PLUS}
    case Cursor => {KEY_CURSOR, KEY_POINTER}
    case Selected => {KEY_SELECTED, KEY_MARKER}
    case _ => {CanonicalKey(f)}
  }

  /** The keys for plain text and matched text. */
  lemma MatchKeysLookUp()
    ensures KeyField(KEY_FG) == Some(Fg)
    ensures KeyField(KEY_BG) == Some(Bg)
    ensures KeyField(KEY_MATCHED) == Some(Matched)
    ensures KeyField(KEY_HL) == Some(Matched)
    ensures KeyField(KEY_MATCHED_BG) == Some(MatchedBg)
  {
    assert KeyField(KEY_FG) == Some(Fg) by { }
    assert KeyField(KEY_BG) == Some(Bg) by { }
    assert KeyField(KEY_MATCHED) == Some(Matched) by { }
    assert KeyField(KEY_HL) == Some(Matched) by { }
    assert KeyField(KEY_MATCHED_BG) == Some(MatchedBg) by { }
  }

  /** The keys for the current line. */
  lemma CurrentLineKeysLookUp()
    ensures KeyField(KEY_CURRENT) == Some(Current)
    ensures KeyField(KEY_FG_PLUS) == Some(Current)
    ensures KeyField(KEY_CURRENT_BG) == Some(CurrentBg)
    ensures KeyField(KEY_BG_PLUS) == Some(CurrentBg)
    ensures KeyField(KEY_CURRENT_MATCH) == Some(CurrentMatch)
    ensures KeyField(KEY_HL_PLUS) == Some(CurrentMatch)
    ensures KeyField(KEY_CURRENT_MATCH_BG) == Some(CurrentMatchBg)
  {
    assert KeyField(KEY_CURRENT) == Some(Current) by { }
    assert KeyField(KEY_FG_PLUS) == Some(Current) by { }
    assert KeyField(KEY_CURRENT_BG) == Some(CurrentBg) by { }
    assert KeyField(KEY_BG_PLUS) == Some(CurrentBg) by { }
    assert KeyField(KEY_CURRENT_MATCH) == Some(CurrentMatch) by { }
    assert KeyField(KEY_HL_PLUS) == Some(CurrentMatch) by { }
    assert KeyField(KEY_CURRENT_MATCH_BG) == Some(CurrentMatchBg) by { }
  }

  /** The keys for the query line and the status. */
  lemma QueryKeysLookUp()
    ensures KeyField(KEY_QUERY) == Some(QueryFg)
    ensures KeyField(KEY_QUERY_BG) == Some(QueryBg)
    ensures KeyField(KEY_SPINNER) == Some(Spinner)
    ensures KeyField(KEY_INFO) == Some(Info)
    ensures KeyField(KEY_PROMPT) == Some(Prompt)
  {
    assert KeyField(KEY_QUERY) == Some(QueryFg) by { }
    assert KeyField(KEY_QUERY_BG) == Some(QueryBg) by { }
    assert KeyField(KEY_SPINNER) == Some(Spinner) by { }
    assert KeyField(KEY_INFO) == Some(Info) by { }
    assert KeyField(KEY_PROMPT) == Some(Prompt) by { }
  }

  /** The keys for the cursor and the selection marker. */
  lemma MarkerKeysLookUp()
    ensures KeyField(KEY_CURSOR) == Some(Cursor)
    ensures KeyField(KEY_POINTER) == Some(Cursor)
    ensures KeyField(KEY_SELECTED) == Some(Selected)
    ensures KeyField(KEY_MARKER) == Some(Selected)
  {
    assert KeyField(KEY_CURSOR) == Some(Cursor) by { }
    assert KeyField(KEY_POINTER) == Some(Cursor) by { }
    assert KeyField(KEY_SELECTED) == Some(Selected) by { }
    assert KeyField(KEY_MARKER) == Some(Selected) by { }
  }

  /** The keys for the header and the border, last in the table. */
  lemma FrameKeysLookUp()
    ensures KeyField(KEY_HEADER) == Some(Header)
    ensures KeyField(KEY_BORDER) == Some(Border)
  {
    assert KeyField(KEY_HEADER) == Some(Header) by { }
    assert KeyField(KEY_BORDER) == Some(Border) by { }
  }

  /** Every key listed for field `f` looks that field up. */
  lemma KeysOfListed(f: ColorField)
    ensures forall key | key in KeysOf(f) :: KeyField(key) == Some(f)
  {
    match f
    case Fg => MatchKeysLookUp();
    case Bg => MatchKeysLookUp();
    case Matched => MatchKeysLookUp();
    case MatchedBg => MatchKeysLookUp();
    case Current => CurrentLineKeysLookUp();
    case CurrentBg => CurrentLineKeysLookUp();
    case CurrentMatch => CurrentLineKeysLookUp();
    case CurrentMatchBg => CurrentLineKeysLookUp();
    case QueryFg => QueryKeysLookUp();
    case QueryBg => QueryKeysLookUp();
    case Spinner => QueryKeysLookUp();
    case Info => QueryKeysLookUp();
    case Prompt => QueryKeysLookUp();
    case Cursor => MarkerKeysLookUp();
    case Selected => MarkerKeysLookUp();
    case Header => FrameKeysLookUp();
    case Border => FrameKeysLookUp();
  }

  /** The lookup and the per-field key lists agree, in both directions. */
  lemma KeyFieldInverse(key: seq<u8>, f: ColorField)
    ensures KeyField(key) == Some(f) <==> key in KeysOf(f)
  {
    if key in KeysOf(f) {
      KeysOfListed(f);
    }
  }

  // ---------------------------------------------------------------------------
  // Colour values

  /**
   * Slicing a 7-byte value at byte offsets 1, 3 and 5 stays on character
   * boundaries; otherwise the source's `&color[1][1..3]` (and the two slices
   * after it) panics.
   */
  predicate Sliceable(v: seq<u8>) {
    |v| == 7 ==> IsCharBoundary(v, 1) && IsCharBoundary(v, 3) && IsCharBoundary(v, 5)
  }

  /** One RGB component: two hexadecimal digits, or 255 when they do not parse. */
  function Component(s: seq<u8>): (c: u8)
    ensures ParseU8(s, 16).Some? ==> c == ParseU8(s, 16).value
    ensures ParseU8(s, 16).None? ==> c == 255
    ensures forall x: u8 | s == Hex2(x) :: c == x
  {
    assert forall x: u8 | s == Hex2(x) :: ParseU8(s, 16) == Some(x) by {
      forall x: u8 | s == Hex2(x) ensures ParseU8(s, 16) == Some(x) {
        ParseHex2(x);
      }
    }
    match ParseU8(s, 16)
    case Some(x) => x
    case None => 255
  }

  /**
   * A colour value: exactly 7 bytes are read as RGB from bytes 1-2, 3-4 and
   * 5-6 (byte 0 is not looked at); anything else is a decimal palette index,
   * or the terminal default when it is not a decimal `u8`.
   */
  function DecodeColor(v: seq<u8>): (c: Color)
    requires Sliceable(v)
    ensures c.Rgb? <==> |v| == 7
    ensures |v| == 7 ==> c == Rgb(Component(v[1..3]), Component(v[3..5]), Component(v[5..7]))
    ensures c.AnsiValue? ==> ParseU8(v, 10) == Some(c.index)
    ensures |v| != 7 ==> (c.AnsiValue? <==> ParseU8(v, 10).Some?)
  {
    if |v| == 7 then
      Rgb(Component(v[1..3]), Component(v[3..5]), Component(v[5..7]))
    else
      match ParseU8(v, 10)
      case Some(n) => AnsiValue(n)
      case None => Default
  }

  /** The bytes a colour value is written with: '#', hexadecimal digits or decimal digits. */
  predicate ValueByte(b: u8) {
    b == HASH || 48 <= b <= 57 || 97 <= b <= 102
  }

  /** A colour written as an option value: "#rrggbb", a decimal index, or nothing for the default. */
  function EncodeColor(c: Color): (v: seq<u8>)
    ensures forall i | 0 <= i < |v| :: ValueByte(v[i])
    ensures Sliceable(v)
  {
    match c
    case Default => []
    case AnsiValue(n) => Decimal(n)
    case Rgb(r, g, b) => [HASH] + Hex2(r) + Hex2(g) + Hex2(b)
  }

  /** Decoding undoes encoding, for every colour. */
  lemma DecodeEncode(c: Color)
    ensures DecodeColor(EncodeColor(c)) == c
  {
    var v := EncodeColor(c);
    match c
    case Default =>
    case AnsiValue(n) =>
      ParseDecimal(n);
    case Rgb(r, g, b) =>
      assert v[1..3] == Hex2(r) && v[3..5] == Hex2(g) && v[5..7] == Hex2(b);
      ParseHex2(r);
      ParseHex2(g);
      ParseHex2(b);
  }

  /** Byte 0 of a 7-byte value is ignored: any byte there gives the same colour. */
  lemma FirstByteIgnored(v: seq<u8>, x: u8)
    requires |v| == 7 && Sliceable(v)
    ensures Sliceable([x] + v[1..])
    ensures DecodeColor([x] + v[1..]) == DecodeColor(v)
  {
    var w := [x] + v[1..];
    assert w[1..3] == v[1..3] && w[3..5] == v[3..5] && w[5..7] == v[5..7];
  }

  /** "#ff0000" is pure red. */
  lemma DecodeRedExample()
    ensures DecodeColor([0x23, 0x66, 0x66, 0x30, 0x30, 0x30, 0x30]) == Rgb(255, 0, 0)
  {
    var rgb: seq<u8> := [0x23, 0x66, 0x66, 0x30, 0x30, 0x30, 0x30];
    assert rgb[1..3] == [0x66, 0x66];
    assert rgb[3..5] == [0x30, 0x30] && rgb[5..7] == [0x30, 0x30];
    assert [0x66, 0x66][..1] == [0x66 as u8] && [0x30, 0x30][..1] == [0x30 as u8];
    assert DigitsValue([0x66], 16) == Some(15);
    assert DigitsValue([0x66, 0x66], 16) == Some(255);
    assert DigitsValue([0x30], 16) == Some(0);
    assert DigitsValue([0x30, 0x30], 16) == Some(0);
  }

  /** "#zz0080": a component that is no hexadecimal number falls back to 255, the others still count. */
  lemma DecodeBadComponentExample()
    ensures DecodeColor([0x23, 0x7a, 0x7a, 0x30, 0x30, 0x38, 0x30]) == Rgb(255, 0, 128)
  {
    var bad: seq<u8> := [0x23, 0x7a, 0x7a, 0x30, 0x30, 0x38, 0x30];
    assert bad[1..3] == [0x7a, 0x7a];
    assert bad[3..5] == [0x30, 0x30];
    assert bad[5..7] == [0x38, 0x30];
    assert [0x7a, 0x7a][..1] == [0x7a as u8] && [0x38, 0x30][..1] == [0x38 as u8];
    assert [0x30, 0x30][..1] == [0x30 as u8];
    assert DigitsValue([0x30, 0x30], 16) == Some(0);
    assert DigitsValue([0x38, 0x30], 16) == Some(128);
  }

  /** "236" is a 256-colour palette index, "256" overflows and "x" is no number: both give the default. */
  lemma DecodeAnsiExamples()
    ensures DecodeColor([0x32, 0x33, 0x36]) == AnsiValue(236)
    ensures DecodeColor([0x32, 0x35, 0x36]) == Default
    ensures DecodeColor([0x78]) == Default
  {
    var n236: seq<u8> := [0x32, 0x33, 0x36];
    assert n236[..2] == [0x32, 0x33] && [0x32, 0x33][..1] == [0x32 as u8];
    assert DigitsValue([0x32], 10) == Some(2);
    assert DigitsValue([0x32, 0x33], 10) == Some(23);
    assert DigitsValue(n236, 10) == Some(236);
    var n256: seq<u8> := [0x32, 0x35, 0x36];
    assert n256[..2] == [0x32, 0x35] && [0x32, 0x35][..1] == [0x32 as u8];
  }

  // ---------------------------------------------------------------------------
  // Pairs and the option string

  /** A pair has a ':' (so a value part exists) and a value that can be sliced. */
  predicate PairWellFormed(pair: seq<u8>) {
    var parts := Split(pair, COLON);
    |parts| >= 2 && Sliceable(parts[1])
  }

  predicate AllPairsWellFormed(pairs: seq<seq<u8>>) {
    forall i | 0 <= i < |pairs| :: PairWellFormed(pairs[i])
  }

  /** Parsing the option string does not panic: every comma-separated pair is well formed. */
  predicate OptionWellFormed(color: seq<u8>) {
    AllPairsWellFormed(Split(color, COMMA))
  }

  /** The field a pair writes: its text before the first ':' looked up in the table. */
  function PairField(pair: seq<u8>): Option<ColorField> {
    KeyField(Split(pair, COLON)[0])
  }

  /** The colour a pair carries: its text between the first and the second ':'. */
  function PairColor(pair: seq<u8>): Color
    requires PairWellFormed(pair)
  {
    DecodeColor(Split(pair, COLON)[1])
  }

  /** One iteration of the source's loop. */
  function ApplyPair(t: ColorTheme, pair: seq<u8>): (u: ColorTheme)
    requires PairWellFormed(pair)
    ensures forall g :: ColorOf(u, g) == if PairField(pair) == Some(g) then PairColor(pair) else ColorOf(t, g)
    ensures SameEffects(t, u)
  {
    match PairField(pair)
    case None => t
    case Some(f) => WithColor(t, f, PairColor(pair))
  }

  /** The pairs applied left to right, starting from `t`; effects are never touched. */
  function ApplyPairs(t: ColorTheme, pairs: seq<seq<u8>>): (u: ColorTheme)
    requires AllPairsWellFormed(pairs)
    ensures SameEffects(t, u)
    decreases |pairs|
  {
    if pairs == [] then t
    else ApplyPair(ApplyPairs(t, pairs[..|pairs| - 1]), pairs[|pairs| - 1])
  }

  /** The theme a colour option string describes: the default theme with its pairs applied. */
  function ParseTheme(color: seq<u8>): (t: ColorTheme)
    requires OptionWellFormed(color)
    ensures SameEffects(DefaultTheme(), t)
  {
    ApplyPairs(DefaultTheme(), Split(color, COMMA))
  }

  /** `ColorTheme::from_options`: update a mutable theme pair by pair. */
  method FromOptions(color: seq<u8>) returns (theme: ColorTheme)
    requires OptionWellFormed(color)
    ensures theme == ParseTheme(color)
  {
    theme := DefaultTheme();
    var pairs := Split(color, COMMA);
    for i := 0 to |pairs|
      invariant theme == ApplyPairs(DefaultTheme(), pairs[..i])
    {
      var parts := Split(pairs[i], COLON);
      var newColor := DecodeColor(parts[1]);
      match KeyField(parts[0]) {
        case Some(f) => theme := WithColor(theme, f, newColor);
        case None =>
      }
      assert pairs[..i + 1][..i] == pairs[..i];
    }
    assert pairs[..|pairs|] == pairs;
  }

  /** `ColorTheme::init_from_options`: the parsed colour option if there is one, else the default. */
  method InitFromOptions(color: Option<seq<u8>>) returns (theme: ColorTheme)
    requires color.Some? ==> OptionWellFormed(color.value)
    ensures color.None? ==> theme == DefaultTheme()
    ensures color.Some? ==> theme == ParseTheme(color.value)
  {
    if color.Some? {
      theme := FromOptions(color.value);
    } else {
      theme := DefaultTheme();
    }
  }

  // ---------------------------------------------------------------------------
  // What parsing does to each field

  /** The last pair that names field `f` decides its colour; later pairs for other fields do not. */
  lemma {:induction false} LastWriteWins(t: ColorTheme, pairs: seq<seq<u8>>, j: nat, f: ColorField)
    requires AllPairsWellFormed(pairs)
    requires j < |pairs| && PairField(pairs[j]) == Some(f)
    requires forall k | j < k < |pairs| :: PairField(pairs[k]) != Some(f)
    ensures ColorOf(ApplyPairs(t, pairs), f) == PairColor(pairs[j])
    decreases |pairs|
  {
    var n := |pairs| - 1;
    var init := pairs[..n];
    assert forall k | 0 <= k < |init| :: init[k] == pairs[k];
    var before := ApplyPairs(t, init);
    assert ApplyPairs(t, pairs) == ApplyPair(before, pairs[n]);
    if j < n {
      LastWriteWins(t, init, j, f);
    }
  }

  /** A field no pair names keeps the colour it started with. */
  lemma {:induction false} UnwrittenFieldKept(t: ColorTheme, pairs: seq<seq<u8>>, f: ColorField)
    requires AllPairsWellFormed(pairs)
    requires forall k | 0 <= k < |pairs| :: PairField(pairs[k]) != Some(f)
    ensures ColorOf(ApplyPairs(t, pairs), f) == ColorOf(t, f)
    decreases |pairs|
  {
    if pairs != [] {
      var init := pairs[..|pairs| - 1];
      assert forall k | 0 <= k < |init| :: init[k] == pairs[k];
      UnwrittenFieldKept(t, init, f);
    }
  }

  /** An option string whose keys are all unrecognised gives exactly the default theme. */
  lemma UnknownKeysGiveDefault(color: seq<u8>)
    requires OptionWellFormed(color)
    requires forall k | 0 <= k < |Split(color, COMMA)| :: PairField(Split(color, COMMA)[k]).None?
    ensures ParseTheme(color) == DefaultTheme()
  {
    forall f ensures ColorOf(ParseTheme(color), f) == ColorOf(DefaultTheme(), f) {
      UnwrittenFieldKept(DefaultTheme(), Split(color, COMMA), f);
    }
    ThemeEquality(ParseTheme(color), DefaultTheme());
  }

  /** Parsing never changes an effect, so every attribute keeps the default theme's effect. */
  lemma ParsedEffects(color: seq<u8>)
    requires OptionWellFormed(color)
    ensures var t := ParseTheme(color);
      && t.Normal().effect == DIM
      && t.MatchedAttr().effect == NO_EFFECT
      && t.CurrentAttr().effect == BOLD
      && t.CurrentMatchAttr().effect == NO_EFFECT
      && t.Query().effect == NO_EFFECT
  {
  }

  /** The aliases of the keyword table, and `query` writing the query foreground. */
  lemma AliasesWriteSameField()
    ensures KeyField(KEY_HL) == KeyField(KEY_MATCHED) == Some(Matched)
    ensures KeyField(KEY_FG_PLUS) == KeyField(KEY_CURRENT) == Some(Current)
    ensures KeyField(KEY_BG_PLUS) == KeyField(KEY_CURRENT_BG) == Some(CurrentBg)
    ensures KeyField(KEY_HL_PLUS) == KeyField(KEY_CURRENT_MATCH) == Some(CurrentMatch)
    ensures KeyField(KEY_POINTER) == KeyField(KEY_CURSOR) == Some(Cursor)
    ensures KeyField(KEY_MARKER) == KeyField(KEY_SELECTED) == Some(Selected)
    ensures KeyField(KEY_QUERY) == Some(QueryFg)
  {
    MatchKeysLookUp();
    CurrentLineKeysLookUp();
    QueryKeysLookUp();
    MarkerKeysLookUp();
  }


  // ---------------------------------------------------------------------------
  // The default theme and the accessors

  /** The colour the default theme gives field `f`. */
  function DefaultColor(f: ColorField): Color {
    if f == Matched || f == CurrentMatch then CYAN
    else if f == Info then YELLOW
    else if f == Cursor then GREEN
    else Default
  }

  /**
   * Spinner, info, prompt, header and border are drawn on the normal
   * background, cursor and selection marker on the current line's; the spinner
   * is always bold and those six carry no other effect.
   */
  lemma AccessorBackgrounds(t: ColorTheme)
    ensures t.SpinnerAttr().bg == t.InfoAttr().bg == t.PromptAttr().bg == t.Normal().bg
    ensures t.HeaderAttr().bg == t.BorderAttr().bg == t.Normal().bg
    ensures t.CursorAttr().bg == t.SelectedAttr().bg == t.CurrentAttr().bg
    ensures t.SpinnerAttr().effect == BOLD
    ensures t.InfoAttr().effect == t.PromptAttr().effect == t.HeaderAttr().effect == NO_EFFECT
    ensures t.BorderAttr().effect == t.CursorAttr().effect == t.SelectedAttr().effect == NO_EFFECT
  {
  }

  /** What the renderer receives from the default theme. */
  lemma DefaultThemeAttrs()
    ensures DefaultTheme().Normal() == Attr(Default, Default, DIM)
    ensures DefaultTheme().MatchedAttr() == Attr(CYAN, Default, NO_EFFECT)
    ensures DefaultTheme().CurrentAttr() == Attr(Default, Default, BOLD)
    ensures DefaultTheme().CurrentMatchAttr() == Attr(CYAN, Default, NO_EFFECT)
    ensures DefaultTheme().Query() == Attr(Default, Default, NO_EFFECT)
    ensures DefaultTheme().SpinnerAttr() == Attr(Default, Default, BOLD)
    ensures DefaultTheme().InfoAttr() == Attr(YELLOW, Default, NO_EFFECT)
    ensures DefaultTheme().PromptAttr() == Attr(Default, Default, NO_EFFECT)
    ensures DefaultTheme().CursorAttr() == Attr(GREEN, Default, NO_EFFECT)
    ensures DefaultTheme().SelectedAttr() == Attr(Default, Default, NO_EFFECT)
    ensures DefaultTheme().HeaderAttr() == Attr(Default, Default, NO_EFFECT)
    ensures DefaultTheme().BorderAttr() == Attr(Default, Default, NO_EFFECT)
  {
  }

  // ---------------------------------------------------------------------------
  // Writing a theme as an option string, and reading it back

  /** The position of `f` in ALL_FIELDS. */
  function FieldIndex(f: ColorField): (i: nat)
    ensures i < |ALL_FIELDS| && ALL_FIELDS[i] == f
  {
    match f
    case Fg => 0
    case Bg => 1
    case Matched => 2
    case MatchedBg => 3
    case Current => 4
    case CurrentBg => 5
    case CurrentMatch => 6
    case CurrentMatchBg => 7
    case QueryFg => 8
    case QueryBg => 9
    case Spinner => 10
    case Info => 11
    case Prompt => 12
    case Cursor => 13
    case Selected => 14
    case Header => 15
    case Border => 16
  }

  /** ALL_FIELDS lists every field exactly once. */
  lemma FieldsDistinct(k: nat)
    requires k < |ALL_FIELDS|
    ensures FieldIndex(ALL_FIELDS[k]) == k
  {
  }

  /** One pair "key:value" for field `f` of `t`. */
  function FieldPair(t: ColorTheme, f: ColorField): seq<u8> {
    CanonicalKey(f) + [COLON] + EncodeColor(ColorOf(t, f))
  }

  function FormatPairs(t: ColorTheme): (pairs: seq<seq<u8>>)
    ensures |pairs| == |ALL_FIELDS|
  {
    seq(|ALL_FIELDS|, i requires 0 <= i < |ALL_FIELDS| => FieldPair(t, ALL_FIELDS[i]))
  }

  /** The option string that sets every colour field of `t`, in ALL_FIELDS order. */
  function FormatTheme(t: ColorTheme): seq<u8> {
    Join(FormatPairs(t), COMMA)
  }

  /** Keys are made of lower-case letters, '_' and '+', so they hold no ',' and no ':'. */
  lemma CanonicalKeyClean(f: ColorField)
    ensures COMMA !in CanonicalKey(f) && COLON !in CanonicalKey(f)
  {
  }

  /** A formatted pair splits back into its key and its value, and writes its field. */
  lemma FieldPairParses(t: ColorTheme, f: ColorField)
    ensures COMMA !in FieldPair(t, f)
    ensures PairWellFormed(FieldPair(t, f))
    ensures PairField(FieldPair(t, f)) == Some(f)
    ensures PairColor(FieldPair(t, f)) == ColorOf(t, f)
  {
    var key, value := CanonicalKey(f), EncodeColor(ColorOf(t, f));
    CanonicalKeyClean(f);
    assert COMMA !in value && COLON !in value by {
      forall i | 0 <= i < |value| ensures value[i] != COMMA && value[i] != COLON {
        assert ValueByte(value[i]);
      }
    }
    assert Join([key, value], COLON) == FieldPair(t, f) by {
      assert [key, value][1..] == [value];
    }
    SplitJoin([key, value], COLON);
    KeyFieldInverse(key, f);
    DecodeEncode(ColorOf(t, f));
  }

  /**
   * Formatting then parsing gives back any theme that has the default
   * effects (effects cannot be written by a colour option).
   */
  lemma ParseFormatRoundTrip(t: ColorTheme)
    requires SameEffects(t, DefaultTheme())
    ensures OptionWellFormed(FormatTheme(t))
    ensures ParseTheme(FormatTheme(t)) == t
  {
    var pairs := FormatPairs(t);
    forall i | 0 <= i < |pairs|
      ensures COMMA !in pairs[i] && PairWellFormed(pairs[i])
      ensures PairField(pairs[i]) == Some(ALL_FIELDS[i])
    {
      FieldPairParses(t, ALL_FIELDS[i]);
    }
    SplitJoin(pairs, COMMA);
    var u := ParseTheme(FormatTheme(t));
    assert u == ApplyPairs(DefaultTheme(), pairs);
    forall f ensures ColorOf(u, f) == ColorOf(t, f) {
      var j := FieldIndex(f);
      forall k | j < k < |pairs| ensures PairField(pairs[k]) != Some(f) {
        FieldsDistinct(k);
      }
      LastWriteWins(DefaultTheme(), pairs, j, f);
      FieldPairParses(t, f);
    }
    ThemeEquality(u, t);
  }
}

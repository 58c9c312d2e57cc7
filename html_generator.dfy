/**
 * The allow-list HTML generator of the chart kit
 * (src/ui/libs/DatalensChartkit/modules/html-generator/index.ts): turns a
 * chart's HTML item tree into markup, escaping text, rejecting (or, when
 * asked, dropping) tags and attributes outside the allow-lists, validating
 * URL attributes and threading tooltip ids down to the children.
 *
 * The DOM (CSS parsing, `cssText`, `outerHTML`), the allow-lists and attribute
 * name constants, `validateUrl`, `getThemeStyle`, `JSON.stringify` and the
 * random id helpers are outside this model: they are the `Env` parameter.
 * The random ids are one stream, `randomId(0)`, `randomId(1)`, ..., and the
 * generator threads the index of the next unused id.
 */
module HtmlGenerator {
  import opened Js

  /** A property of a plain object, in `Object.entries` order. */
  datatype Entry = Entry(key: string, value: Value)

  /** `ChartKitHtmlItem | ChartKitHtmlItem[] | string`. `Falsy` stands for
      undefined, null and the other falsy values; missing `attributes` and
      `style` are empty. */
  datatype HtmlItem =
    | Falsy
    | Text(s: string)
    | Items(items: seq<HtmlItem>)
    | Element(tag: Option<string>, attributes: seq<Entry>, style: seq<Entry>, content: HtmlItem, theme: Value)

  datatype Options = Options(tooltipId: Option<string>, ignoreInvalidValues: bool, addElementId: bool)

  /** An attribute of a built element. */
  datatype Attr = Attr(name: string, value: string)

  /** An element as built before it is serialised. */
  datatype Node = Node(tagName: string, attributes: seq<Attr>, innerHtml: string)

  datatype HtmlError = TagNotAllowed(tag: Option<string>) | AttributeNotAllowed(key: string) | UrlNotValid(key: string)

  /** What the generator returns, or the error it throws. */
  datatype Outcome<+T> = Done(value: T) | Failed(error: HtmlError)

  datatype Env = Env(
    allowedTags: set<string>,
    allowedAttributes: set<string>,
    tagDlTooltip: string,
    attrTooltipContent: string,
    attrTooltipPlacement: string,
    attrTooltipAnchorId: string,
    attrElementId: string,
    attrCeTheme: string,
    validUrl: string -> bool,
    cssAccepts: (string, Value) -> bool,
    cssText: seq<Entry> -> string,
    jsonStringify: Value -> string,
    themeStyle: (Value, string) -> string,
    outerHtml: Node -> string,
    randomId: nat -> string)

  const RefValidationAttrs: seq<string> := ["background", "href", "xlink:href", "src"]

  // ---------------------------------------------------------------------------
  // Escaping

  /** lodash `escape` of one character. */
  function EscapeChar(c: char): string
  {
    if c == '&' then "&amp;"
    else if c == '<' then "&lt;"
    else if c == '>' then "&gt;"
    else if c == '"' then "&quot;"
    else if c == '\'' then "&#39;"
    else [c]
  }

  /** lodash `escape`. */
  function Escape(s: string): (r: string)
    ensures forall i :: 0 <= i < |r| ==> r[i] !in {'<', '>', '"', '\''}
    ensures |r| >= |s|
  {
    if s == [] then [] else EscapeChar(s[0]) + Escape(s[1..])
  }

  /** `s` holds `c` at position `i`. */
  predicate At(s: string, i: nat, c: char)
  {
    i < |s| && s[i] == c
  }

  /** lodash `unescape`, the inverse of `Escape`: the five entities are
      replaced by their characters. */
  function Unescape(s: string): string
  {
    if s == [] then []
    else if s[0] == '&' && At(s, 1, 'a') && At(s, 2, 'm') && At(s, 3, 'p') && At(s, 4, ';') then "&" + Unescape(s[5..])
    else if s[0] == '&' && At(s, 1, 'l') && At(s, 2, 't') && At(s, 3, ';') then "<" + Unescape(s[4..])
    else if s[0] == '&' && At(s, 1, 'g') && At(s, 2, 't') && At(s, 3, ';') then ">" + Unescape(s[4..])
    else if s[0] == '&' && At(s, 1, 'q') && At(s, 2, 'u') && At(s, 3, 'o') && At(s, 4, 't') && At(s, 5, ';') then
      "\"" + Unescape(s[6..])
    else if s[0] == '&' && At(s, 1, '#') && At(s, 2, '3') && At(s, 3, '9') && At(s, 4, ';') then "'" + Unescape(s[5..])
    else [s[0]] + Unescape(s[1..])
  }

  /** One escaped character is read back in front of whatever follows. */
  lemma UnescapeEscapedChar(c: char, rest: string)
    ensures Unescape(EscapeChar(c) + rest) == [c] + Unescape(rest)
  {
    var e := EscapeChar(c) + rest;
    if c == '&' {
      assert e[..5] == "&amp;" && e[5..] == rest;
    } else if c == '<' {
      assert e[..4] == "&lt;" && e[4..] == rest;
    } else if c == '>' {
      assert e[..4] == "&gt;" && e[4..] == rest;
    } else if c == '"' {
      assert e[..6] == "&quot;" && e[6..] == rest;
    } else if c == '\'' {
      assert e[..5] == "&#39;" && e[5..] == rest;
    } else {
      assert e[0] == c && e[1..] == rest;
    }
  }

  /** Escaping loses nothing: the text is recovered from its escaped form. */
  lemma {:induction false} UnescapeEscape(s: string)
    ensures Unescape(Escape(s)) == s
  {
    if s != [] {
      UnescapeEscape(s[1..]);
      UnescapeEscapedChar(s[0], Escape(s[1..]));
      assert [s[0]] + s[1..] == s;
    }
  }

  // ---------------------------------------------------------------------------
  // Attributes

  /** `elem.setAttribute(name, value)` on an HTML element: the name is
      lower-cased, an existing attribute keeps its place and takes the new
      value, a new one is appended. */
  function SetAttribute(attrs: seq<Attr>, name: string, value: string): (r: seq<Attr>)
    ensures Lookup(r, LowerAscii(name)) == Some(value)
    ensures forall other :: other != LowerAscii(name) ==> Lookup(r, other) == Lookup(attrs, other)
  {
    var lower := LowerAscii(name);
    if attrs == [] then [Attr(lower, value)]
    else if attrs[0].name == lower then [Attr(lower, value)] + attrs[1..]
    else [attrs[0]] + SetAttribute(attrs[1..], name, value)
  }

  /** `elem.getAttribute(name)` for a lower-case name. */
  function Lookup(attrs: seq<Attr>, name: string): Option<string>
  {
    if attrs == [] then None
    else if attrs[0].name == name then Some(attrs[0].value)
    else Lookup(attrs[1..], name)
  }

  predicate AttributeAllowed(key: string, env: Env)
  {
    LowerAscii(key) in env.allowedAttributes
  }

  /** `ATTRS_WITH_REF_VALIDATION.includes(key)` as written: the key is not
      lower-cased, unlike the allow-list check. */
  predicate NeedsUrlValidationAsWritten(key: string)
  {
    key in RefValidationAttrs
  }

  /** The URL check applied to every spelling of the attribute names. */
  predicate NeedsUrlValidation(key: string)
  {
    LowerAscii(key) in RefValidationAttrs
  }

  /** `TOOLTIP_ATTRS.includes(key) ? JSON.stringify(value) : String(value)` */
  function PreparedValue(e: Entry, env: Env): string
  {
    if e.key == env.attrTooltipContent || e.key == env.attrTooltipPlacement then env.jsonStringify(e.value)
    else ToStr(e.value)
  }

  /** One entry of the `attributes.forEach` loop. */
  function AttributeStep(attrs: seq<Attr>, e: Entry, ignoreInvalidValues: bool, env: Env): (r: Outcome<seq<Attr>>)
    ensures r.Failed? <==>
      (!AttributeAllowed(e.key, env) && !ignoreInvalidValues) ||
      (AttributeAllowed(e.key, env) && NeedsUrlValidation(e.key) && !env.validUrl(ToStr(e.value)))
    ensures !AttributeAllowed(e.key, env) && ignoreInvalidValues ==> r == Done(attrs)
    ensures AttributeAllowed(e.key, env) && r.Done? ==> r.value == SetAttribute(attrs, e.key, PreparedValue(e, env))
  {
    if !AttributeAllowed(e.key, env) then
      if ignoreInvalidValues then Done(attrs) else Failed(AttributeNotAllowed(e.key))
    else if NeedsUrlValidation(e.key) && !env.validUrl(ToStr(e.value)) then
      Failed(UrlNotValid(e.key))
    else
      Done(SetAttribute(attrs, e.key, PreparedValue(e, env)))
  }

  /** The whole `attributes.forEach` loop; the first throw ends it. */
  function ApplyAttributes(attrs: seq<Attr>, entries: seq<Entry>, ignoreInvalidValues: bool, env: Env)
    : Outcome<seq<Attr>>
  {
    if entries == [] then Done(attrs)
    else
      match ApplyAttributes(attrs, entries[..|entries| - 1], ignoreInvalidValues, env)
      case Failed(err) => Failed(err)
      case Done(a) => AttributeStep(a, entries[|entries| - 1], ignoreInvalidValues, env)
  }

  /** The entries the allow-list accepts. */
  function AllowedEntries(entries: seq<Entry>, env: Env): (r: seq<Entry>)
    ensures forall i :: 0 <= i < |r| ==> AttributeAllowed(r[i].key, env)
  {
    if entries == [] then []
    else
      var last := entries[|entries| - 1];
      AllowedEntries(entries[..|entries| - 1], env) + (if AttributeAllowed(last.key, env) then [last] else [])
  }

  /** Without `ignoreInvalidValues` an attribute outside the allow-list
      throws: a successful run saw only allowed attributes. */
  lemma {:induction false} StrictRunSawOnlyAllowed(attrs: seq<Attr>, entries: seq<Entry>, env: Env)
    requires ApplyAttributes(attrs, entries, false, env).Done?
    ensures forall i :: 0 <= i < |entries| ==> AttributeAllowed(entries[i].key, env)
  {
    if entries != [] {
      var init := entries[..|entries| - 1];
      StrictRunSawOnlyAllowed(attrs, init, env);
      assert forall i :: 0 <= i < |init| ==> entries[i] == init[i];
    }
  }

  /** With `ignoreInvalidValues` the attributes outside the allow-list are
      skipped and the rest are set exactly as a strict run over them would. */
  lemma {:induction false} IgnoredAttributesSkipped(attrs: seq<Attr>, entries: seq<Entry>, env: Env)
    ensures ApplyAttributes(attrs, entries, true, env) == ApplyAttributes(attrs, AllowedEntries(entries, env), false, env)
  {
    if entries != [] {
      var init := entries[..|entries| - 1];
      var last := entries[|entries| - 1];
      IgnoredAttributesSkipped(attrs, init, env);
      var allowed := AllowedEntries(init, env);
      if AttributeAllowed(last.key, env) {
        assert AllowedEntries(entries, env) == allowed + [last];
        assert (allowed + [last])[..|allowed + [last]| - 1] == allowed;
        var prev := ApplyAttributes(attrs, init, true, env);
        assert ApplyAttributes(attrs, allowed + [last], false, env) ==
          match prev case Failed(err) => Failed(err) case Done(a) => AttributeStep(a, last, false, env);
        if prev.Done? {
          assert AttributeStep(prev.value, last, false, env) == AttributeStep(prev.value, last, true, env);
        }
      } else {
        assert AllowedEntries(entries, env) == allowed;
      }
    }
  }

  /** Every attribute of a URL kind, in any spelling, that got through has a
      valid URL. */
  lemma {:induction false} UrlsValidated(attrs: seq<Attr>, entries: seq<Entry>, ignoreInvalidValues: bool, env: Env)
    requires ApplyAttributes(attrs, entries, ignoreInvalidValues, env).Done?
    ensures forall i :: 0 <= i < |entries| && AttributeAllowed(entries[i].key, env) && NeedsUrlValidation(entries[i].key) ==>
      env.validUrl(ToStr(entries[i].value))
  {
    if entries != [] {
      var init := entries[..|entries| - 1];
      UrlsValidated(attrs, init, ignoreInvalidValues, env);
      assert forall i :: 0 <= i < |init| ==> entries[i] == init[i];
    }
  }

  /** As written, an upper-case `HREF` passes the allow-list but not the URL
      check, and is set as the `href` attribute with whatever URL it holds. */
  lemma UpperCaseHrefSkipsValidation(env: Env, url: string)
    requires "href" in env.allowedAttributes && !env.validUrl(url)
    requires env.attrTooltipContent != "HREF" && env.attrTooltipPlacement != "HREF"
    ensures AttributeAllowed("HREF", env) && !NeedsUrlValidationAsWritten("HREF")
    ensures SetAttribute([], "HREF", PreparedValue(Entry("HREF", Str(url)), env)) == [Attr("href", url)]
    ensures AttributeStep([], Entry("HREF", Str(url)), false, env) == Failed(UrlNotValid("HREF"))
  {
    assert LowerAscii("HREF") == "href";
    assert "HREF" != "href";
  }

  /** The `attributes.forEach` loop, entry by entry. */
  method SetAttributes(attrs: seq<Attr>, entries: seq<Entry>, ignoreInvalidValues: bool, env: Env)
    returns (r: Outcome<seq<Attr>>)
    ensures r == ApplyAttributes(attrs, entries, ignoreInvalidValues, env)
  {
    var current := attrs;
    var i := 0;
    while i < |entries|
      invariant 0 <= i <= |entries|
      invariant ApplyAttributes(attrs, entries[..i], ignoreInvalidValues, env) == Done(current)
    {
      assert entries[..i + 1][..i] == entries[..i];
      var step := AttributeStep(current, entries[i], ignoreInvalidValues, env);
      if step.Failed? {
        FailureStays(attrs, entries, i + 1, ignoreInvalidValues, env);
        return step;
      }
      current := step.value;
      i := i + 1;
    }
    assert entries[..|entries|] == entries;
    r := Done(current);
  }

  lemma {:induction false} FailureStays(attrs: seq<Attr>, entries: seq<Entry>, n: nat, ignoreInvalidValues: bool, env: Env)
    requires 0 < n <= |entries|
    requires ApplyAttributes(attrs, entries[..n], ignoreInvalidValues, env).Failed?
    ensures ApplyAttributes(attrs, entries, ignoreInvalidValues, env) == ApplyAttributes(attrs, entries[..n], ignoreInvalidValues, env)
    decreases |entries| - n
  {
    if n < |entries| {
      assert entries[..n + 1][..n] == entries[..n];
      FailureStays(attrs, entries, n + 1, ignoreInvalidValues, env);
    } else {
      assert entries[..n] == entries;
    }
  }

  // ---------------------------------------------------------------------------
  // Styles

  /** `${key}: ${escape(String(value))};` */
  function CssDeclaration(e: Entry): string
  {
    e.key + ": " + Escape(ToStr(e.value)) + ";"
  }

  /** The style properties the browser did not take, as declarations. */
  function AdditionalCss(style: seq<Entry>, env: Env): (r: seq<string>)
    ensures |r| <= |style|
  {
    if style == [] then []
    else
      var last := style[|style| - 1];
      AdditionalCss(style[..|style| - 1], env) +
        (if env.cssAccepts(last.key, last.value) then [] else [CssDeclaration(last)])
  }

  /** The element's style attribute: the browser's `cssText`, followed by the
      additional declarations when there are any. */
  function StyleAttributes(cssText: string, additional: seq<string>): (r: seq<Attr>)
    ensures additional == [] && cssText == "" ==> r == []
    ensures additional == [] && cssText != "" ==> r == [Attr("style", cssText)]
    ensures |r| <= 1 && forall i :: 0 <= i < |r| ==> r[i].name == "style"
  {
    var text :=
      if additional == [] then cssText
      else (if cssText != "" then cssText + " " else "") + Join(additional, " ");
    if text == "" then [] else [Attr("style", text)]
  }

  /** The `Object.entries(style).forEach` loop filling `additionalCssProperties`. */
  method CollectAdditionalCss(style: seq<Entry>, env: Env) returns (additional: seq<string>)
    ensures additional == AdditionalCss(style, env)
  {
    additional := [];
    var i := 0;
    while i < |style|
      invariant 0 <= i <= |style|
      invariant additional == AdditionalCss(style[..i], env)
    {
      assert style[..i + 1][..i] == style[..i];
      if !env.cssAccepts(style[i].key, style[i].value) {
        additional := additional + [CssDeclaration(style[i])];
      }
      i := i + 1;
    }
    assert style[..|style|] == style;
  }

  // ---------------------------------------------------------------------------
  // Elements

  predicate TagAllowed(tag: Option<string>, env: Env)
  {
    tag.Some? && LowerAscii(tag.value) in env.allowedTags
  }

  /** `options?.tooltipId` is truthy. */
  predicate HasTooltipId(o: Options)
  {
    o.tooltipId.Some? && o.tooltipId.value != ""
  }

  /** An element before its content is generated: the node, the options
      its children get, the theme style put before them, and the next
      unused random id. */
  datatype Parts = Parts(node: Node, next: Options, themeStyle: string, nextId: nat)

  /** What `Object.assign(elem.style, ...)` hands the browser. */
  function AssignedStyle(isDLTooltip: bool, style: seq<Entry>): seq<Entry>
  {
    (if isDLTooltip then [Entry("display", Str("inline-block"))] else []) + style
  }

  /** The element built step by step, up to its content. */
  function ElementParts(item: HtmlItem, o: Options, env: Env, n: nat): Outcome<Parts>
    requires item.Element? && TagAllowed(item.tag, env)
  {
    var tag := item.tag.value;
    var isDLTooltip := tag == env.tagDlTooltip;
    var styleEntries := AssignedStyle(isDLTooltip, item.style);
    var styled := StyleAttributes(env.cssText(styleEntries), AdditionalCss(item.style, env));
    match ApplyAttributes(styled, item.attributes, o.ignoreInvalidValues, env)
    case Failed(err) => Failed(err)
    case Done(a1) => Done(Decorate(a1, item, o, env, n))
  }

  /** After the user attributes: the tooltip anchor, the element id, the
      tooltip's own id with the options handed down, and the theme. */
  function Decorate(a1: seq<Attr>, item: HtmlItem, o: Options, env: Env, n: nat): Parts
    requires item.Element? && item.tag.Some?
  {
    var tag := item.tag.value;
    var isDLTooltip := tag == env.tagDlTooltip;
    var a2 := if !isDLTooltip && HasTooltipId(o) then SetAttribute(a1, env.attrTooltipAnchorId, o.tooltipId.value) else a1;
    var a3 := if o.addElementId then SetAttribute(a2, env.attrElementId, env.randomId(n)) else a2;
    var n1 := if o.addElementId then n + 1 else n;
    var a4 := if isDLTooltip then SetAttribute(a3, "id", env.randomId(n1)) else a3;
    var next := if isDLTooltip then o.(tooltipId := Some(env.randomId(n1))) else o;
    var n2 := if isDLTooltip then n1 + 1 else n1;
    var a5 := if Truthy(item.theme) then SetAttribute(a4, env.attrCeTheme, env.randomId(n2)) else a4;
    var themeStyle := if Truthy(item.theme) then env.themeStyle(item.theme, env.randomId(n2)) else "";
    var n3 := if Truthy(item.theme) then n2 + 1 else n2;
    Parts(Node(if isDLTooltip then "div" else tag, a5, ""), next, themeStyle, n3)
  }

  /** `generateHtml(item, options)`, with the next unused random id. */
  function GenerateHtml(item: HtmlItem, o: Options, env: Env, n: nat): (r: (Outcome<string>, nat))
    ensures r.1 >= n
    decreases item, 1
  {
    match item
    case Falsy => (Done(""), n)
    case Text(s) => (Done(Escape(s)), n)
    case Items(items) => GenerateList(item, |items|, o, env, n)
    case Element(tag, _, _, content, _) =>
      if !TagAllowed(tag, env) then
        (if o.ignoreInvalidValues then Done("") else Failed(TagNotAllowed(tag)), n)
      else
        match ElementParts(item, o, env, n)
        case Failed(err) => (Failed(err), n)
        case Done(p) =>
          var (inner, n') := GenerateHtml(content, p.next, env, p.nextId);
          match inner
          case Failed(err) => (Failed(err), n')
          case Done(html) => (Done(env.outerHtml(p.node.(innerHtml := p.themeStyle + html))), n')
  }

  /** `item.map((it) => generateHtml(it, options)).join('')` over the first
      `m` items; the first throw ends it. */
  function GenerateList(item: HtmlItem, m: nat, o: Options, env: Env, n: nat): (r: (Outcome<string>, nat))
    requires item.Items? && m <= |item.items|
    ensures r.1 >= n
    decreases item, 0, m
  {
    if m == 0 then (Done(""), n)
    else
      var (prev, n1) := GenerateList(item, m - 1, o, env, n);
      match prev
      case Failed(err) => (Failed(err), n1)
      case Done(html) =>
        var (cur, n2) := GenerateHtml(item.items[m - 1], o, env, n1);
        match cur
        case Failed(err) => (Failed(err), n2)
        case Done(more) => (Done(html + more), n2)
  }

  /** A falsy item, the empty text included, produces no markup. */
  lemma FalsyItemIsEmpty(o: Options, env: Env, n: nat)
    ensures GenerateHtml(Falsy, o, env, n) == (Done(""), n)
    ensures GenerateHtml(Text(""), o, env, n) == (Done(""), n)
  {
  }

  /** A string produces its escaped form, from which it can be read back. */
  lemma TextIsEscaped(s: string, o: Options, env: Env, n: nat)
    ensures GenerateHtml(Text(s), o, env, n) == (Done(Escape(s)), n)
    ensures Unescape(GenerateHtml(Text(s), o, env, n).0.value) == s
  {
    UnescapeEscape(s);
  }

  /** A tag outside the allow-list, in any case, throws, or produces no
      markup when invalid values are ignored; no random id is used. */
  lemma DisallowedTag(item: HtmlItem, o: Options, env: Env, n: nat)
    requires item.Element? && !TagAllowed(item.tag, env)
    ensures o.ignoreInvalidValues ==> GenerateHtml(item, o, env, n) == (Done(""), n)
    ensures !o.ignoreInvalidValues ==> GenerateHtml(item, o, env, n) == (Failed(TagNotAllowed(item.tag)), n)
  {
  }

  /** A list produces the concatenation of its items' markup, each generated
      with the same options, the random ids continuing from one item to the
      next. */
  lemma {:induction false} ListConcatenates(items: seq<HtmlItem>, more: HtmlItem, o: Options, env: Env, n: nat)
    requires GenerateHtml(Items(items), o, env, n).0.Done?
    ensures var (prev, n1) := GenerateHtml(Items(items), o, env, n);
      GenerateHtml(Items(items + [more]), o, env, n) ==
        match GenerateHtml(more, o, env, n1).0
        case Failed(err) => (Failed(err), GenerateHtml(more, o, env, n1).1)
        case Done(html) => (Done(prev.value + html), GenerateHtml(more, o, env, n1).1)
  {
    var all := items + [more];
    assert Items(all).items[..|items|] == items;
    ListPrefix(Items(items), Items(all), |items|, o, env, n);
  }

  /** The first `m` items of two lists that agree on them generate alike. */
  lemma {:induction false} ListPrefix(a: HtmlItem, b: HtmlItem, m: nat, o: Options, env: Env, n: nat)
    requires a.Items? && b.Items? && m <= |a.items| && m <= |b.items|
    requires a.items[..m] == b.items[..m]
    ensures GenerateList(a, m, o, env, n) == GenerateList(b, m, o, env, n)
  {
    if m > 0 {
      assert a.items[..m - 1] == b.items[..m - 1] by {
        assert a.items[..m][..m - 1] == a.items[..m - 1];
        assert b.items[..m][..m - 1] == b.items[..m - 1];
      }
      assert a.items[m - 1] == a.items[..m][m - 1] == b.items[..m][m - 1] == b.items[m - 1];
      ListPrefix(a, b, m - 1, o, env, n);
    }
  }

  /** A one-item list generates as the item itself. */
  lemma SingletonList(it: HtmlItem, o: Options, env: Env, n: nat)
    ensures GenerateHtml(Items([it]), o, env, n) == GenerateHtml(it, o, env, n)
  {
    var g := GenerateHtml(it, o, env, n);
    assert GenerateList(Items([it]), 0, o, env, n) == (Done(""), n);
    if g.0.Done? {
      assert "" + g.0.value == g.0.value;
    }
  }

  /** An element other than a tooltip gets the anchor attribute holding the
      tooltip id it was given, and passes its options on unchanged. */
  lemma ElementAnchoredToTooltip(item: HtmlItem, o: Options, env: Env, n: nat)
    requires item.Element? && TagAllowed(item.tag, env) && item.tag.value != env.tagDlTooltip
    requires HasTooltipId(o)
    requires LowerAscii(env.attrTooltipAnchorId) != LowerAscii(env.attrElementId)
    requires LowerAscii(env.attrTooltipAnchorId) != LowerAscii(env.attrCeTheme)
    requires ElementParts(item, o, env, n).Done?
    ensures var p := ElementParts(item, o, env, n).value;
      Lookup(p.node.attributes, LowerAscii(env.attrTooltipAnchorId)) == o.tooltipId &&
      p.next == o && p.node.tagName == item.tag.value
  {
  }

  /** A `dl-tooltip` becomes a `div` whose `id` is a fresh random id, and
      its children get that id as their tooltip id; it does not anchor
      itself: without a user attribute of that name, it has no anchor
      attribute. */
  lemma TooltipPassesFreshId(item: HtmlItem, o: Options, env: Env, n: nat)
    requires item.Element? && TagAllowed(item.tag, env) && item.tag.value == env.tagDlTooltip
    requires LowerAscii(env.attrCeTheme) != "id"
    requires ElementParts(item, o, env, n).Done?
    ensures var p := ElementParts(item, o, env, n).value;
      var id := env.randomId(if o.addElementId then n + 1 else n);
      p.node.tagName == "div" && p.next == o.(tooltipId := Some(id)) &&
      Lookup(p.node.attributes, "id") == Some(id)
    ensures var p := ElementParts(item, o, env, n).value;
      var anchor := LowerAscii(env.attrTooltipAnchorId);
      anchor != "style" && anchor != "id" && anchor != LowerAscii(env.attrElementId) && anchor != LowerAscii(env.attrCeTheme) &&
      (forall i :: 0 <= i < |item.attributes| ==> LowerAscii(item.attributes[i].key) != anchor) ==>
      Lookup(p.node.attributes, anchor) == None
  {
    var styleEntries := AssignedStyle(true, item.style);
    var styled := StyleAttributes(env.cssText(styleEntries), AdditionalCss(item.style, env));
    var a1 := ApplyAttributes(styled, item.attributes, o.ignoreInvalidValues, env).value;
    assert ElementParts(item, o, env, n).value == Decorate(a1, item, o, env, n);
    DecorateTooltip(a1, item, o, env, n);
    var anchor := LowerAscii(env.attrTooltipAnchorId);
    if anchor != "style" && (forall i :: 0 <= i < |item.attributes| ==> LowerAscii(item.attributes[i].key) != anchor) {
      assert Lookup(styled, anchor) == None;
      UntouchedName(styled, item.attributes, o.ignoreInvalidValues, env, anchor);
    }
  }

  /** The steps after the user attributes, for a tooltip. */
  lemma DecorateTooltip(a1: seq<Attr>, item: HtmlItem, o: Options, env: Env, n: nat)
    requires item.Element? && item.tag == Some(env.tagDlTooltip)
    requires LowerAscii(env.attrCeTheme) != "id"
    ensures var p := Decorate(a1, item, o, env, n);
      var id := env.randomId(if o.addElementId then n + 1 else n);
      p.node.tagName == "div" && p.next == o.(tooltipId := Some(id)) &&
      Lookup(p.node.attributes, "id") == Some(id)
    ensures var p := Decorate(a1, item, o, env, n);
      var anchor := LowerAscii(env.attrTooltipAnchorId);
      anchor != "id" && anchor != LowerAscii(env.attrElementId) && anchor != LowerAscii(env.attrCeTheme) &&
      Lookup(a1, anchor) == None ==>
      Lookup(p.node.attributes, anchor) == None
  {
    var n1 := if o.addElementId then n + 1 else n;
    var a3 := if o.addElementId then SetAttribute(a1, env.attrElementId, env.randomId(n)) else a1;
    var id := env.randomId(n1);
    var a4 := SetAttribute(a3, "id", id);
    assert LowerAscii("id") == "id";
    assert Lookup(a4, "id") == Some(id);
    var a5 := if Truthy(item.theme) then SetAttribute(a4, env.attrCeTheme, env.randomId(n1 + 1)) else a4;
    assert Lookup(a5, "id") == Some(id);
    assert Decorate(a1, item, o, env, n).node.attributes == a5;
  }

  /** A name no entry spells is left as it was. */
  lemma {:induction false} UntouchedName(attrs: seq<Attr>, entries: seq<Entry>, ignoreInvalidValues: bool, env: Env, name: string)
    requires forall i :: 0 <= i < |entries| ==> LowerAscii(entries[i].key) != name
    requires ApplyAttributes(attrs, entries, ignoreInvalidValues, env).Done?
    ensures Lookup(ApplyAttributes(attrs, entries, ignoreInvalidValues, env).value, name) == Lookup(attrs, name)
  {
    if entries != [] {
      var init := entries[..|entries| - 1];
      assert forall i :: 0 <= i < |init| ==> init[i] == entries[i];
      UntouchedName(attrs, init, ignoreInvalidValues, env, name);
    }
  }

  /** The children of an element are generated with the options it hands
      down, after the random ids it used. */
  lemma ContentGeneratedWithNextOptions(item: HtmlItem, o: Options, env: Env, n: nat)
    requires item.Element? && TagAllowed(item.tag, env) && ElementParts(item, o, env, n).Done?
    requires GenerateHtml(item.content, ElementParts(item, o, env, n).value.next, env, ElementParts(item, o, env, n).value.nextId).0.Done?
    ensures var p := ElementParts(item, o, env, n).value;
      var (inner, n') := GenerateHtml(item.content, p.next, env, p.nextId);
      GenerateHtml(item, o, env, n) == (Done(env.outerHtml(p.node.(innerHtml := p.themeStyle + inner.value))), n')
  {
  }

  // ---------------------------------------------------------------------------
  // The generator, statement by statement

  /** The element built with the two loops, up to its content. */
  method BuildElement(item: HtmlItem, o: Options, env: Env, n: nat) returns (r: Outcome<Parts>)
    requires item.Element? && TagAllowed(item.tag, env)
    ensures r == ElementParts(item, o, env, n)
  {
    var tag := item.tag.value;
    var isDLTooltip := tag == env.tagDlTooltip;
    var styleEntries := AssignedStyle(isDLTooltip, item.style);
    var additional := CollectAdditionalCss(item.style, env);
    var styled := StyleAttributes(env.cssText(styleEntries), additional);
    var attributes := SetAttributes(styled, item.attributes, o.ignoreInvalidValues, env);
    if attributes.Failed? {
      return Failed(attributes.error);
    }
    var p := DecorateElement(attributes.value, item, o, env, n);
    r := Done(p);
  }

  /** The `setAttribute` calls after the user attributes, and the
      `nextOptions` copy. */
  method DecorateElement(a1: seq<Attr>, item: HtmlItem, o: Options, env: Env, n: nat) returns (p: Parts)
    requires item.Element? && item.tag.Some?
    ensures p == Decorate(a1, item, o, env, n)
  {
    var tag := item.tag.value;
    var isDLTooltip := tag == env.tagDlTooltip;
    var attrs := a1;
    var nextId := n;
    if !isDLTooltip && HasTooltipId(o) {
      attrs := SetAttribute(attrs, env.attrTooltipAnchorId, o.tooltipId.value);
    }
    if o.addElementId {
      attrs := SetAttribute(attrs, env.attrElementId, env.randomId(nextId));
      nextId := nextId + 1;
    }
    ghost var a3, n1 := attrs, nextId;
    var nextOptions := o;
    if isDLTooltip {
      var tooltipId := env.randomId(nextId);
      nextId := nextId + 1;
      attrs := SetAttribute(attrs, "id", tooltipId);
      nextOptions := nextOptions.(tooltipId := Some(tooltipId));
    }
    assert attrs == if isDLTooltip then SetAttribute(a3, "id", env.randomId(n1)) else a3;
    var themeStyle := "";
    if Truthy(item.theme) {
      var dataThemeId := env.randomId(nextId);
      nextId := nextId + 1;
      attrs := SetAttribute(attrs, env.attrCeTheme, dataThemeId);
      themeStyle := env.themeStyle(item.theme, dataThemeId);
    }
    p := Parts(Node(if isDLTooltip then "div" else tag, attrs, ""), nextOptions, themeStyle, nextId);
  }

  /** `generateHtml(item, options)`. */
  method Generate(item: HtmlItem, o: Options, env: Env, n: nat) returns (r: Outcome<string>, nextId: nat)
    ensures (r, nextId) == GenerateHtml(item, o, env, n)
    decreases item, 1
  {
    match item
    case Falsy =>
      r, nextId := Done(""), n;
    case Text(s) =>
      r, nextId := Done(Escape(s)), n;
    case Items(items) =>
      r, nextId := GenerateItems(item, o, env, n);
    case Element(tag, _, _, content, _) =>
      if !TagAllowed(tag, env) {
        r, nextId := if o.ignoreInvalidValues then Done("") else Failed(TagNotAllowed(tag)), n;
        return;
      }
      var parts := BuildElement(item, o, env, n);
      if parts.Failed? {
        r, nextId := Failed(parts.error), n;
        return;
      }
      var p := parts.value;
      var inner;
      inner, nextId := Generate(content, p.next, env, p.nextId);
      if inner.Failed? {
        r := Failed(inner.error);
      } else {
        r := Done(env.outerHtml(p.node.(innerHtml := p.themeStyle + inner.value)));
      }
  }

  /** `item.map((it) => generateHtml(it, options)).join('')` */
  method GenerateItems(item: HtmlItem, o: Options, env: Env, n: nat) returns (r: Outcome<string>, nextId: nat)
    requires item.Items?
    ensures (r, nextId) == GenerateList(item, |item.items|, o, env, n)
    decreases item, 0
  {
    var html := "";
    nextId := n;
    var i := 0;
    while i < |item.items|
      invariant 0 <= i <= |item.items|
      invariant GenerateList(item, i, o, env, n) == (Done(html), nextId)
    {
      var cur;
      cur, nextId := Generate(item.items[i], o, env, nextId);
      if cur.Failed? {
        r := Failed(cur.error);
        ListFailureStays(item, i + 1, o, env, n);
        return;
      }
      html := html + cur.value;
      i := i + 1;
    }
    r := Done(html);
  }

  lemma {:induction false} ListFailureStays(item: HtmlItem, m: nat, o: Options, env: Env, n: nat)
    requires item.Items? && 0 < m <= |item.items|
    requires GenerateList(item, m, o, env, n).0.Failed?
    ensures GenerateList(item, |item.items|, o, env, n) == GenerateList(item, m, o, env, n)
    decreases |item.items| - m
  {
    if m < |item.items| {
      ListFailureStays(item, m + 1, o, env, n);
    }
  }
}

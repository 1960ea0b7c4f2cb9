/**
 * Syntax colouring of the code window (src/components/Canvas.tsx:27-48, 135-169, 242).
 *
 * Prism turns text into a token stream: plain strings interleaved with tokens,
 * each token carrying a type (or a list of types) and content that is a string,
 * one token, or a further stream.  The canvas maps that tree to `<span>`s whose
 * class comes from the first type looked up in a fixed colour table.  The
 * tokenizer and its grammars are foreign: here they are parameters.
 */
module PrismRender {
  import opened Options

  /** `TOKEN_COLORS` (Canvas.tsx:30-48): Prism token type to Tailwind classes. */
  const TokenColors: map<string, string> := map[
    "keyword" := "text-purple-400 font-semibold",
    "string" := "text-orange-400",
    "number" := "text-green-400",
    "comment" := "text-zinc-500 italic font-light",
    "function" := "text-yellow-300",
    "class-name" := "text-blue-300 font-bold",
    "tag" := "text-rose-400 font-medium",
    "attr" := "text-amber-200",
    "operator" := "text-sky-300",
    "punctuation" := "text-zinc-400",
    "boolean" := "text-rose-400",
    "builtin" := "text-blue-300 italic",
    "variable" := "text-zinc-100",
    "property" := "text-amber-200",
    "selector" := "text-rose-400",
    "constant" := "text-rose-400",
    "char" := "text-orange-400"
  ]

  /** A token's `type`: one name, or an array of names. */
  datatype Kind = One(name: string) | Many(names: seq<string>)

  /** An item of a Prism token stream. */
  datatype Node = Str(text: string) | Token(kind: Kind, content: Content)

  /** A token's `content`: a string, a single nested token, or a nested stream.
      Prism never puts a bare string in `Single` (the renderer tests for a string
      first); `Single(Str(s))` renders exactly as `Text(s)` does. */
  datatype Content = Text(text: string) | Single(node: Node) | Stream(nodes: seq<Node>)

  /** What the renderer produces: a bare string, or a `<span className=...>` with children. */
  datatype Html = Plain(text: string) | Span(className: string, children: seq<Html>)

  /** `Array.isArray(token.type) ? token.type[0] : token.type`; an empty array gives undefined. */
  function PrimaryType(k: Kind): (t: Option<string>)
    ensures k.One? ==> t == Some(k.name)
    ensures k.Many? ==> (t.Some? <==> k.names != []) && (t.Some? ==> t.value == k.names[0])
  {
    match k
    case One(name) => Some(name)
    case Many(names) => if names == [] then None else Some(names[0])
  }

  /** `TOKEN_COLORS[tokenType] || ""`: the table's classes for the first type, or none. */
  function ClassOf(k: Kind): (c: string)
    ensures PrimaryType(k).Some? && PrimaryType(k).value in TokenColors ==> c == TokenColors[PrimaryType(k).value]
    ensures PrimaryType(k).None? || PrimaryType(k).value !in TokenColors ==> c == ""
    ensures c == "" || c in TokenColors.Values
  {
    match PrimaryType(k)
    case None => ""
    case Some(t) => if t in TokenColors then TokenColors[t] else ""
  }

  /** Only the first of several types decides, and a type missing from the table gets no
      classes: Prism's `attr-name` is uncoloured because the table's key is `attr`. */
  lemma ClassExamples()
    ensures ClassOf(Many(["keyword", "string"])) == "text-purple-400 font-semibold"
    ensures ClassOf(Many(["attr-name", "attr"])) == ""
    ensures ClassOf(One("attr")) == "text-amber-200"
    ensures ClassOf(Many([])) == ""
  {
  }

  /** `renderPrismTokens` (Canvas.tsx:138-156): the stream mapped item by item. */
  function RenderAll(tokens: seq<Node>): (r: seq<Html>)
    ensures |r| == |tokens|
    ensures forall i :: 0 <= i < |tokens| ==> r[i] == RenderNode(tokens[i])
    decreases tokens
  {
    if tokens == [] then [] else [RenderNode(tokens[0])] + RenderAll(tokens[1..])
  }

  /** One item: a string passes through, a token becomes a span (Canvas.tsx:140-154). */
  function RenderNode(n: Node): (h: Html)
    ensures n.Str? ==> h == Plain(n.text)
    ensures n.Token? ==> h.Span? && h.className == ClassOf(n.kind)
    decreases n
  {
    match n
    case Str(s) => Plain(s)
    case Token(k, c) => Span(ClassOf(k), RenderContent(c))
  }

  /** A token's children: a string as is, a stream recursively, and a lone token as the
      one-item stream `[content]` (Canvas.tsx:149-151). */
  function RenderContent(c: Content): (hs: seq<Html>)
    ensures c.Text? ==> hs == [Plain(c.text)]
    ensures c.Single? ==> |hs| == 1
    ensures c.Stream? ==> |hs| == |c.nodes|
    decreases c
  {
    match c
    case Text(s) => [Plain(s)]
    case Single(n) => [RenderNode(n)]
    case Stream(ns) => RenderAll(ns)
  }

  /** The top level keeps its length and order; strings come out unchanged and every
      token becomes a span carrying its class. */
  lemma RenderShape(tokens: seq<Node>, i: nat)
    requires i < |tokens|
    ensures |RenderAll(tokens)| == |tokens|
    ensures tokens[i].Str? ==> RenderAll(tokens)[i] == Plain(tokens[i].text)
    ensures tokens[i].Token? ==> RenderAll(tokens)[i].Span? &&
                                 RenderAll(tokens)[i].className == ClassOf(tokens[i].kind)
  {
  }

  /** The text of a token stream, read depth first and left to right. */
  function StreamText(ns: seq<Node>): string
    decreases ns
  {
    if ns == [] then "" else NodeText(ns[0]) + StreamText(ns[1..])
  }

  function NodeText(n: Node): string
    decreases n
  {
    match n
    case Str(s) => s
    case Token(_, c) => ContentText(c)
  }

  function ContentText(c: Content): string
    decreases c
  {
    match c
    case Text(s) => s
    case Single(n) => NodeText(n)
    case Stream(ns) => StreamText(ns)
  }

  /** The text a rendered tree displays. */
  function HtmlText(hs: seq<Html>): string
    decreases hs
  {
    if hs == [] then "" else
      (match hs[0]
       case Plain(s) => s
       case Span(_, children) => HtmlText(children)) + HtmlText(hs[1..])
  }

  /** Rendering shows exactly the tokenizer's text, in order: colouring adds spans, never text. */
  lemma {:induction false} RenderKeepsText(tokens: seq<Node>)
    ensures HtmlText(RenderAll(tokens)) == StreamText(tokens)
    decreases tokens
  {
    if tokens != [] {
      var r := RenderAll(tokens);
      assert r[1..] == RenderAll(tokens[1..]);
      NodeKeepsText(tokens[0]);
      RenderKeepsText(tokens[1..]);
    }
  }

  lemma {:induction false} NodeKeepsText(n: Node)
    ensures HtmlText([RenderNode(n)]) == NodeText(n)
    decreases n
  {
    match n
    case Str(s) =>
      assert HtmlText([Plain(s)]) == s + HtmlText([]);
    case Token(k, c) =>
      var h := RenderNode(n);
      assert HtmlText([h]) == HtmlText(RenderContent(c)) + HtmlText([]);
      ContentKeepsText(c);
  }

  lemma {:induction false} ContentKeepsText(c: Content)
    ensures HtmlText(RenderContent(c)) == ContentText(c)
    decreases c
  {
    match c
    case Text(s) =>
      assert HtmlText([Plain(s)]) == s + HtmlText([]);
    case Single(n) =>
      NodeKeepsText(n);
    case Stream(ns) =>
      RenderKeepsText(ns);
  }

  /** Every class in a rendered tree is the empty string or a value of the colour table. */
  predicate ClassesFromTable(hs: seq<Html>)
    decreases hs
  {
    forall i :: 0 <= i < |hs| ==>
      match hs[i]
      case Plain(_) => true
      case Span(cls, children) => (cls == "" || cls in TokenColors.Values) && ClassesFromTable(children)
  }

  lemma {:induction false} RenderUsesTable(tokens: seq<Node>)
    ensures ClassesFromTable(RenderAll(tokens))
    decreases tokens
  {
    var r := RenderAll(tokens);
    forall i | 0 <= i < |tokens|
      ensures match r[i]
              case Plain(_) => true
              case Span(cls, children) => (cls == "" || cls in TokenColors.Values) && ClassesFromTable(children)
    {
      NodeUsesTable(tokens[i]);
      assert [RenderNode(tokens[i])][0] == r[i];
    }
  }

  lemma {:induction false} NodeUsesTable(n: Node)
    ensures ClassesFromTable([RenderNode(n)])
    decreases n
  {
    match n
    case Str(_) =>
    case Token(k, c) =>
      match c
      case Text(_) =>
      case Single(m) => NodeUsesTable(m);
      case Stream(ns) => RenderUsesTable(ns);
  }

  /** `prismLang`: the select's `html` is Prism's `markup`; every other name is kept (Canvas.tsx:162-163). */
  function PrismLanguage(lang: string): (p: string)
    ensures lang == "html" ==> p == "markup"
    ensures lang != "html" ==> p == lang
  {
    if lang == "html" then "markup" else lang
  }

  /** `Prism.languages[prismLang] || Prism.languages.javascript` (Canvas.tsx:165). */
  function GrammarFor<G>(lang: string, grammars: map<string, G>): (g: G)
    requires "javascript" in grammars
    ensures PrismLanguage(lang) in grammars ==> g == grammars[PrismLanguage(lang)]
    ensures PrismLanguage(lang) !in grammars ==> g == grammars["javascript"]
  {
    var prismLang := PrismLanguage(lang);
    if prismLang in grammars then grammars[prismLang] else grammars["javascript"]
  }

  /** `highlightCodeWithPrism` (Canvas.tsx:158-169); `None` stands for its `null`. */
  function Highlight<G>(text: string, lang: string, grammars: map<string, G>,
                        tokenize: (string, G) -> seq<Node>): (r: Option<seq<Html>>)
    requires "javascript" in grammars
    ensures r.None? <==> text == ""
    ensures r.Some? ==> |r.value| == |tokenize(text, GrammarFor(lang, grammars))|
    ensures r.Some? ==> HtmlText(r.value) == StreamText(tokenize(text, GrammarFor(lang, grammars)))
  {
    if text == "" then None
    else
      var tokens := tokenize(text, GrammarFor(lang, grammars));
      RenderKeepsText(tokens);
      Some(RenderAll(tokens))
  }

  /** The grammars the canvas imports (Canvas.tsx:7-14). */
  const ImportedGrammars: set<string> :=
    {"markup", "css", "clike", "javascript", "jsx", "typescript", "tsx", "python"}

  /** The language values the sidebar offers (src/components/Sidebar.tsx:36-43). */
  const OfferedLanguages: seq<string> := ["javascript", "typescript", "css", "html", "python", "tsx"]

  /** Every offered language reaches a grammar of its own: `html` uses markup and
      none of them falls back to javascript. */
  lemma OfferedLanguagesHaveGrammars<G>(grammars: map<string, G>)
    requires ImportedGrammars <= grammars.Keys
    ensures GrammarFor("html", grammars) == grammars["markup"]
    ensures forall l :: l in OfferedLanguages ==>
      PrismLanguage(l) in ImportedGrammars && GrammarFor(l, grammars) == grammars[PrismLanguage(l)]
  {
  }

  /** What the code window passes in (Canvas.tsx:242): an empty editor shows a placeholder. */
  const Placeholder: string := "// Start typing your code..."

  function CodeWindow<G>(code: string, language: string, grammars: map<string, G>,
                         tokenize: (string, G) -> seq<Node>): (r: Option<seq<Html>>)
    requires "javascript" in grammars
    ensures r.Some?
    ensures code == "" ==>
      HtmlText(r.value) == StreamText(tokenize(Placeholder, GrammarFor(if language == "" then "javascript" else language, grammars)))
  {
    Highlight(if code == "" then Placeholder else code,
              if language == "" then "javascript" else language, grammars, tokenize)
  }
}

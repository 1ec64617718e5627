/** Sanitizing an uploaded SVG, token by token. */
module SvgSanitizer {
  import opened Options
  import opened Texts

  const SVG_NAMESPACE := "http://www.w3.org/2000/svg"
  const MAX_TOKENS := 100_000
  const MAX_DEPTH := 64

  datatype Attribute = Attribute(space: string, name: string, value: string)

  datatype Token =
    | Start(space: string, name: string, attributes: seq<Attribute>)
    | End(space: string, name: string)
    | CharData(text: string)
    | Comment(text: string)
    | ProcInst(target: string)
    | Directive(text: string)

  /** The attributes an element may have besides the global ones; None for an element that is not listed. */
  function Listed(name: string): Option<set<string>> {
    if name == "svg" then Some({"xmlns", "width", "height", "viewBox", "preserveAspectRatio", "version"})
    else if name == "g" || name == "defs" || name == "title" || name == "desc" then Some({})
    else if name == "path" then Some({"d"})
    else if name == "rect" then Some({"x", "y", "width", "height", "rx", "ry"})
    else if name == "circle" then Some({"cx", "cy", "r"})
    else if name == "ellipse" then Some({"cx", "cy", "rx", "ry"})
    else if name == "line" then Some({"x1", "y1", "x2", "y2"})
    else if name == "polyline" || name == "polygon" then Some({"points"})
    else if name == "clipPath" then Some({"clipPathUnits"})
    else if name == "mask" then Some({"maskUnits", "x", "y", "width", "height"})
    else if name == "linearGradient" then Some({"x1", "y1", "x2", "y2", "gradientUnits", "gradientTransform"})
    else if name == "radialGradient" then Some({"cx", "cy", "r", "fx", "fy", "gradientUnits", "gradientTransform"})
    else if name == "stop" then Some({"offset", "stop-color", "stop-opacity"})
    else if name == "use" then Some({"href", "x", "y", "width", "height"})
    else None
  }

  predicate Global(name: string) {
    name in {"id", "fill", "fill-opacity", "fill-rule", "stroke", "stroke-width", "stroke-opacity", "stroke-linecap",
        "stroke-linejoin",
             "stroke-miterlimit", "stroke-dasharray", "stroke-dashoffset", "opacity", "transform", "clip-path", "mask",
                 "vector-effect"}
  }

  predicate IsLetter(c: char) { 'A' <= c <= 'Z' || 'a' <= c <= 'z' }

  /** A reference url(#name) to something in the document, and nothing else. */
  predicate LocalReference(value: string) {
    && |value| >= 7 && value[..5] == "url(#" && value[|value| - 1] == ')' && (IsLetter(value[5]) || value[5] == '_')
    && forall i :: 6 <= i < |value| - 1 ==> IsLetter(value[i]) || '0' <= value[i] <= '9' || value[i] in "_.:-"
  }

  predicate SafeValue(name: string, value: string) {
    var lower := Lower(TrimSpace(value));
    if !Without(value, '<') || !Without(value, '>') || !Without(value, '\0') || Contains(lower, "javascript:")
        || Contains(lower, "data:")
       || Contains(lower, "@import") || Contains(lower, "expression(") || Contains(lower, "http:")
           || Contains(lower, "https:")
       || HasPrefix(lower, "//")
    then false
    else if name == "href" then HasPrefix(lower, "#") && |lower| > 1
    else if Contains(lower, "url(") then LocalReference(value)
    else true
  }

  predicate AllowedAttribute(element: string, a: Attribute) {
    && !HasPrefix(Lower(a.name), "on") && SafeValue(a.name, a.value)
    && ((Listed(element).Some? && a.name in Listed(element).value) || Global(a.name))
  }

  /** The attributes of an element that are kept, without their name spaces; None when one is not allowed. */
  function Kept(element: string, attributes: seq<Attribute>): Option<seq<Attribute>> {
    if attributes == [] then Some([])
    else
      var last := attributes[|attributes| - 1];
      var before := Kept(element, attributes[..|attributes| - 1]);
      if before.None? then None
      else if last.name == "xmlns" then before
      else if AllowedAttribute(element, last) then Some(before.value + [last.(space := "")])
      else None
  }

  function Declaration(element: string): seq<Attribute>
  {
    if element == "svg" then [Attribute("", "xmlns", SVG_NAMESPACE)] else []
  }

  /** What a token becomes: nothing, one token, or a refusal of the document. */
  datatype Cleaned = Refused | Dropped | Becomes(token: Token)

  function Clean(t: Token): Cleaned {
    match t
    case Start(space, name, attributes) =>
      if Listed(name).None? || (space != "" && space != SVG_NAMESPACE) then Refused
      else if Kept(name, attributes).None? then Refused
      else Becomes(Start("", name, Declaration(name) + Kept(name, attributes).value))
    case End(_, name) => Becomes(End("", name))
    case CharData(text) => Becomes(t)
    case Comment(_) => Dropped
    case ProcInst(target) => if Lower(target) == "xml" then Dropped else Refused
    case Directive(_) => Refused
  }

  /** Where the sanitizer stands; `open` is the encoder's stack of open elements. */
  datatype State = State(depth: int, roots: nat, tokens: nat, open: seq<string>, output: seq<Token>)

  const START := State(0, 0, 0, [], [])

  function Next(s: State, t: Token): Option<State> {
    var cleaned := Clean(t);
    if s.tokens + 1 > MAX_TOKENS || cleaned.Refused? then None
    else
      var counted := s.(tokens := s.tokens + 1);
      if cleaned.Dropped? then if t.ProcInst? && (s.roots != 0 || s.depth != 0) then None else Some(counted)
      else
        var written := counted.(output := s.output + [cleaned.token]);
        match cleaned.token
        case Start(_, name, _) =>
          var roots := if s.depth == 0 then s.roots + 1 else s.roots;
          if s.depth + 1 > MAX_DEPTH || (s.depth == 0 && (roots != 1 || name != "svg")) then None
          else Some(written.(depth := s.depth + 1, roots := roots, open := s.open + [name]))
        case End(_, name) =>
          if s.open == [] || s.open[|s.open| - 1] != name then None
          else Some(written.(depth := s.depth - 1, open := s.open[..|s.open| - 1]))
        case _ => Some(written)
  }

  function Fed(tokens: seq<Token>): Option<State> {
    if tokens == [] then Some(START)
    else
      var before := Fed(tokens[..|tokens| - 1]);
      if before.None? then None else Next(before.value, tokens[|tokens| - 1])
  }

  function Sanitized(tokens: seq<Token>): Option<seq<Token>> {
    var end := Fed(tokens);
    if end.Some? && end.value.roots == 1 && end.value.depth == 0 then Some(end.value.output) else None
  }

  /* ---------- As the program does it ---------- */

  method SanitizeAttributes(element: string, attributes: seq<Attribute>) returns (kept: Option<seq<Attribute>>)
    ensures kept == Kept(element, attributes)
  {
    var list: seq<Attribute> := [];
    for i := 0 to |attributes|
      invariant Kept(element, attributes[..i]) == Some(list)
    {
      assert attributes[..i + 1][..i] == attributes[..i];
      var a := attributes[i];
      if a.name == "xmlns" {
        continue;
      }
      if !AllowedAttribute(element, a) {
        KeptNeedsAll(element, attributes, i + 1);
        return None;
      }
      list := list + [a.(space := "")];
    }
    assert attributes[..|attributes|] == attributes;
    kept := Some(list);
  }

  lemma {:induction false} KeptNeedsAll(element: string, attributes: seq<Attribute>, n: nat)
    requires n <= |attributes| && Kept(element, attributes[..n]).None?
    ensures Kept(element, attributes).None?
    decreases |attributes| - n
  {
    if n < |attributes| {
      assert attributes[..n + 1][..n] == attributes[..n];
      hide AllowedAttribute;
      KeptNeedsAll(element, attributes, n + 1);
    } else {
      assert attributes[..n] == attributes;
    }
  }

  lemma {:induction false} FedNeedsAll(tokens: seq<Token>, n: nat)
    requires n <= |tokens| && Fed(tokens[..n]).None?
    ensures Fed(tokens).None?
    decreases |tokens| - n
  {
    if n < |tokens| {
      assert tokens[..n + 1][..n] == tokens[..n];
      hide Next;
      FedNeedsAll(tokens, n + 1);
    } else {
      assert tokens[..n] == tokens;
    }
  }

  method SanitizeSVG(tokens: seq<Token>) returns (output: Option<seq<Token>>)
    ensures output == Sanitized(tokens)
  {
    var s := START;
    for i := 0 to |tokens|
      invariant Fed(tokens[..i]) == Some(s)
    {
      assert tokens[..i + 1][..i] == tokens[..i];
      hide Next;
      var next := Step(s, tokens[i]);
      if next.None? {
        FedNeedsAll(tokens, i + 1);
        return None;
      }
      s := next.value;
    }
    assert tokens[..|tokens|] == tokens;
    if s.roots != 1 || s.depth != 0 {
      return None;
    }
    output := Some(s.output);
  }

  /** One turn of the loop. */
  method Step(s: State, t: Token) returns (next: Option<State>)
    ensures next == Next(s, t)
  {
    var depth, roots, open, output := s.depth, s.roots, s.open, s.output;
    var tokens := s.tokens + 1;
    if tokens > MAX_TOKENS {
      return None;
    }
    match t {
      case Start(space, name, attributes) =>
        if Listed(name).None? || (space != "" && space != SVG_NAMESPACE) {
          return None;
        }
        depth := depth + 1;
        if depth > MAX_DEPTH {
          return None;
        }
        if depth == 1 {
          roots := roots + 1;
          if roots != 1 || name != "svg" {
            return None;
          }
        }
        var kept := SanitizeAttributes(name, attributes);
        if kept.None? {
          return None;
        }
        output := output + [Start("", name, Declaration(name) + kept.value)];
        open := open + [name];
      case End(_, name) =>
        if open == [] || open[|open| - 1] != name {
          return None;
        }
        output := output + [End("", name)];
        open := open[..|open| - 1];
        depth := depth - 1;
      case CharData(_) =>
        output := output + [t];
      case Comment(_) =>
      case ProcInst(target) =>
        if Lower(target) != "xml" || roots != 0 || depth != 0 {
          return None;
        }
      case Directive(_) =>
        return None;
    }
    next := Some(State(depth, roots, tokens, open, output));
  }

  /* ---------- What the output is ---------- */

  /** The sanitizer's walk over the nesting of a stream: the open elements after it, or None when it is not nested. */
  function Nesting(tokens: seq<Token>): Option<seq<string>> {
    if tokens == [] then Some([])
    else
      var before, last := Nesting(tokens[..|tokens| - 1]), tokens[|tokens| - 1];
      if before.None? then None
      else
        var open := before.value;
        match last
        case Start(_, name, _) => if |open| >= MAX_DEPTH then None else Some(open + [name])
        case End(_, name) => if open != [] && open[|open| - 1] == name then Some(open[..|open| - 1]) else None
        case _ => Some(open)
  }

  /** The elements that stand at the top of a stream. */
  function Tops(tokens: seq<Token>): seq<string> {
    if tokens == [] then []
    else
      var before, last := tokens[..|tokens| - 1], tokens[|tokens| - 1];
      Tops(before) + (if last.Start? && Nesting(before) == Some([]) then [last.name] else [])
  }

  /** A listed element without name space, whose attributes are all allowed; an svg element declares its name space
      first. */
  predicate CleanElement(t: Token) {
    && t.Start? && t.space == "" && Listed(t.name).Some?
    && |t.attributes| >= |Declaration(t.name)| && t.attributes[..|Declaration(t.name)|] == Declaration(t.name)
    && forall i :: |Declaration(t.name)| <= i < |t.attributes| ==>
         t.attributes[i].space == "" && t.attributes[i].name != "xmlns" && AllowedAttribute(t.name, t.attributes[i])
  }

  predicate CleanToken(t: Token) { CleanElement(t) || (t.End? && t.space == "") || t.CharData? }

  lemma {:induction false} KeptIsAllowed(element: string, attributes: seq<Attribute>)
    requires Kept(element, attributes).Some?
    ensures forall a ::
          a in Kept(element, attributes).value ==> a.space == "" && a.name != "xmlns" && AllowedAttribute(element, a)
    ensures forall a :: a in attributes ==> a.name == "xmlns" || AllowedAttribute(element, a)
  {
    hide SafeValue, Listed, Global;
    if attributes != [] {
      KeptIsAllowed(element, attributes[..|attributes| - 1]);
      assert attributes == attributes[..|attributes| - 1] + [attributes[|attributes| - 1]];
    }
  }

  lemma CleanMakesClean(t: Token)
    requires Clean(t).Becomes?
    ensures CleanToken(Clean(t).token)
  {
    hide AllowedAttribute, Listed;
    if t.Start? {
      KeptIsAllowed(t.name, t.attributes);
      var a := Clean(t).token.attributes;
      var d := |Declaration(t.name)|;
      assert forall i :: d <= i < |a| ==> a[i] == Kept(t.name, t.attributes).value[i - d];
    }
  }

  /** What is written is what the tokens become, in their order. */
  function CleanAll(tokens: seq<Token>): seq<Token> {
    if tokens == [] then []
    else
      var cleaned := Clean(tokens[|tokens| - 1]);
      CleanAll(tokens[..|tokens| - 1]) + (if cleaned.Becomes? then [cleaned.token] else [])
  }

  predicate AtMostSvg(tops: seq<string>) { tops == [] || tops == ["svg"] }

  /** The streams that can go on to be accepted: not too long, nothing refused, nested, with svg as the only top
      element, and with processing instructions before it only. */
  predicate Acceptable(tokens: seq<Token>) {
    && |tokens| <= MAX_TOKENS && (forall t :: t in tokens ==> !Clean(t).Refused?)
    && Nesting(CleanAll(tokens)).Some? && AtMostSvg(Tops(CleanAll(tokens)))
    && forall i :: 0 <= i < |tokens| && tokens[i].ProcInst? ==> Tops(CleanAll(tokens[..i])) == []
  }

  predicate Tracks(s: State, tokens: seq<Token>) {
    && s.depth == |s.open| && s.tokens == |tokens| && s.output == CleanAll(tokens) && Nesting(s.output) == Some(s.open)
    && (s.roots == 0 || s.roots == 1) && Tops(s.output) == (if s.roots == 1 then ["svg"] else [])
        && (s.roots == 0 ==> s.open == [])
  }

  lemma OneTopMore(tops: seq<string>, name: string)
    ensures AtMostSvg(tops + [name]) <==> tops == [] && name == "svg"
  {
    assert (tops + [name])[|tops|] == name && |tops + [name]| == |tops| + 1;
    if tops == [] && name == "svg" {
      assert tops + [name] == ["svg"];
    }
  }

  lemma CleanAllNext(tokens: seq<Token>, t: Token)
    ensures CleanAll(tokens + [t]) == if Clean(t).Becomes? then CleanAll(tokens) + [Clean(t).token]
        else CleanAll(tokens)
  {
    hide Clean;
    assert (tokens + [t])[..|tokens|] == tokens;
  }

  lemma NestingNext(tokens: seq<Token>, t: Token)
    ensures Nesting(tokens).None? ==> Nesting(tokens + [t]).None?
    ensures Tops(tokens + [t]) == if t.Start? && Nesting(tokens) == Some([]) then Tops(tokens) + [t.name]
        else Tops(tokens)
    ensures Nesting(tokens).Some? ==>
              var open := Nesting(tokens).value;
              Nesting(tokens + [t]) == match t
                                       case Start(_, name, _) => if |open| >= MAX_DEPTH then None
                                           else Some(open + [name])
                                       case End(_, name) => if open != [] && open[|open| - 1] == name
                                           then Some(open[..|open| - 1]) else None
                                       case _ => Some(open)
  {
    assert (tokens + [t])[..|tokens|] == tokens;
  }

  predicate AcceptableNext(s: State, t: Token) {
    && s.tokens + 1 <= MAX_TOKENS && !Clean(t).Refused? && (t.ProcInst? ==> Tops(s.output) == [])
    && (Clean(t).Becomes? ==>
          var output := s.output + [Clean(t).token]; Nesting(output).Some? && AtMostSvg(Tops(output)))
  }

  /** The sanitizer goes on exactly when the stream stays acceptable, and keeps track of it. */
  lemma NextTracks(s: State, tokens: seq<Token>, t: Token)
    requires Tracks(s, tokens)
    ensures Next(s, t).Some? <==> AcceptableNext(s, t)
    ensures Next(s, t).Some? ==> Tracks(Next(s, t).value, tokens + [t])
  {
    hide Listed, Kept, Declaration, Nesting, Tops, CleanAll;
    CleanAllNext(tokens, t);
    if Clean(t).Becomes? {
      NestingNext(s.output, Clean(t).token);
      if t.Start? {
        OneTopMore(Tops(s.output), t.name);
      }
    }
  }

  lemma AcceptableGrows(s: State, tokens: seq<Token>, t: Token)
    requires Tracks(s, tokens) && Acceptable(tokens)
    ensures Acceptable(tokens + [t]) <==> AcceptableNext(s, t)
  {
    hide Clean, Nesting, Tops, CleanAll;
    CleanAllNext(tokens, t);
    var all := tokens + [t];
    assert all[|tokens|] == t && all[..|tokens|] == tokens;
    assert forall i :: 0 <= i < |tokens| ==> all[i] == tokens[i] && all[..i] == tokens[..i];
    assert forall x :: x in all <==> x in tokens || x == t;
  }

  lemma AcceptablePrefix(tokens: seq<Token>, t: Token)
    requires Acceptable(tokens + [t])
    ensures Acceptable(tokens)
  {
    hide Clean, Nesting, Tops, CleanAll;
    CleanAllNext(tokens, t);
    if Clean(t).Becomes? {
      var token := Clean(t).token;
      NestingNext(CleanAll(tokens), token);
      if token.Start? {
        OneTopMore(Tops(CleanAll(tokens)), token.name);
      }
    }
    var all := tokens + [t];
    assert forall i :: 0 <= i < |tokens| ==> all[i] == tokens[i] && all[..i] == tokens[..i];
  }

  lemma StartTracks()
    ensures Tracks(START, []) && Acceptable([])
  {
  }

  lemma {:induction false} FedTracks(tokens: seq<Token>)
    ensures Fed(tokens).Some? <==> Acceptable(tokens)
    ensures Fed(tokens).Some? ==> Tracks(Fed(tokens).value, tokens)
  {
    hide Next, Tracks, Acceptable, AcceptableNext;
    if tokens == [] {
      StartTracks();
    } else {
      var last := |tokens| - 1;
      var before, t := tokens[..last], tokens[last];
      assert tokens == before + [t];
      FedTracks(before);
      if Fed(before).Some? {
        NextTracks(Fed(before).value, before, t);
        AcceptableGrows(Fed(before).value, before, t);
      } else if Acceptable(tokens) {
        AcceptablePrefix(before, t);
      }
    }
  }

  /** A stream is sanitized exactly when it is acceptable and complete, and then to what its tokens become, in their
      order. */
  lemma SanitizesExactly(tokens: seq<Token>)
    ensures Sanitized(tokens) == if Acceptable(tokens) && Nesting(CleanAll(tokens)) == Some([])
        && Tops(CleanAll(tokens)) == ["svg"]
                                 then Some(CleanAll(tokens)) else None
  {
    hide Fed, Acceptable, CleanAll, Nesting, Tops;
    FedTracks(tokens);
  }

  lemma {:induction false} CleanAllIsClean(tokens: seq<Token>)
    ensures |CleanAll(tokens)| <= |tokens| && forall t :: t in CleanAll(tokens) ==> CleanToken(t)
  {
    hide Clean, CleanToken;
    if tokens != [] {
      CleanAllIsClean(tokens[..|tokens| - 1]);
      if Clean(tokens[|tokens| - 1]).Becomes? {
        CleanMakesClean(tokens[|tokens| - 1]);
      }
    }
  }

  /** Whatever is accepted comes out nested, at most 64 elements deep, with one svg element at the top, and with listed
      elements and attributes only. */
  lemma SanitizedIsSafe(tokens: seq<Token>)
    requires Sanitized(tokens).Some?
    ensures var output := Sanitized(tokens).value;
            && Nesting(output) == Some([]) && Tops(output) == ["svg"] && (forall t :: t in output ==> CleanToken(t))
            && |output| <= |tokens| <= MAX_TOKENS
  {
    hide Fed, Acceptable, CleanAll, Nesting, Tops, CleanToken, Sanitized;
    SanitizesExactly(tokens);
    CleanAllIsClean(tokens);
    AcceptableIsShort(tokens);
  }

  lemma AcceptableIsShort(tokens: seq<Token>)
    ensures Acceptable(tokens) ==> |tokens| <= MAX_TOKENS
  {
  }

  /* ---------- Why the output is harmless ---------- */

  /** What becomes of each token: refused are directives, processing instructions other than xml, and elements that are
      not listed, foreign or have an attribute that is not allowed; comments and the xml instruction are dropped. */
  lemma TokensBecome(t: Token)
    ensures Clean(t).Refused? <==>
              || t.Directive?
              || (t.ProcInst? && Lower(t.target) != "xml")
              || (t.Start? && (Listed(t.name).None? || t.space !in {"", "http://www.w3.org/2000/svg"}
                               || exists a :: a in t.attributes && a.name != "xmlns" && !AllowedAttribute(t.name, a)))
    ensures Clean(t).Dropped? <==> t.Comment? || (t.ProcInst? && Lower(t.target) == "xml")
    ensures t.CharData? ==> Clean(t) == Becomes(t)
    ensures t.End? ==> Clean(t) == Becomes(End("", t.name))
    ensures t.Start? && Clean(t).Becomes? ==>
              && Clean(t).token.Start? && Clean(t).token.space == "" && Clean(t).token.name == t.name
              && Clean(t).token.attributes == Declaration(t.name) + WithoutSpaces(WithoutDeclarations(t.attributes))
  {
    hide AllowedAttribute, Listed, WithoutSpaces, WithoutDeclarations, Declaration;
    if t.Start? {
      KeptExactly(t.name, t.attributes);
    }
  }

  function WithoutSpaces(attributes: seq<Attribute>): seq<Attribute> {
    seq(|attributes|, i requires 0 <= i < |attributes| => attributes[i].(space := ""))
  }

  lemma {:induction false} KeptExactly(element: string, attributes: seq<Attribute>)
    ensures Kept(element, attributes).Some? <==>
              forall a :: a in attributes && a.name != "xmlns" ==> AllowedAttribute(element, a)
    ensures Kept(element, attributes).Some? ==>
              Kept(element, attributes).value == WithoutSpaces(WithoutDeclarations(attributes))
  {
    hide AllowedAttribute;
    if attributes != [] {
      var last := |attributes| - 1;
      KeptExactly(element, attributes[..last]);
      assert forall a :: a in attributes <==> a in attributes[..last] || a == attributes[last];
    }
  }

  /** Drawing elements only: no script, style, link, image, animation or foreign content. */
  lemma ListedElements(name: string)
    ensures Listed(name).Some? <==>
              name in {"svg", "g", "defs", "title", "desc", "path", "rect", "circle", "ellipse", "line", "polyline",
                       "polygon", "clipPath", "mask", "linearGradient", "radialGradient", "stop", "use"}
  {
  }

  /** What no attribute value of the output does: leave the document, run anything or break out of the markup. */
  predicate Harmless(a: Attribute) {
    var value := Lower(TrimSpace(a.value));
    && !HasPrefix(Lower(a.name), "on") && a.name != "style"
    && '<' !in a.value && '>' !in a.value && '\0' !in a.value
    && !Contains(value, "javascript:") && !Contains(value, "data:") && !Contains(value, "http:")
    && !Contains(value, "https:") && !HasPrefix(value, "//") && !Contains(value, "@import")
    && !Contains(value, "expression(")
    && (a.name == "href" ==> value != [] && value[0] == '#')
    && (Contains(value, "url(") && a.name != "href" ==>
          |a.value| >= 7 && a.value[..5] == "url(#" && forall i :: 5 <= i < |a.value| - 1 ==> a.value[i] != '(')
  }

  lemma AllowedIsHarmless(element: string, a: Attribute)
    requires AllowedAttribute(element, a)
    ensures Harmless(a)
  {
    hide Lower, TrimSpace, Contains;
    assert a.name != "style" by {
      hide SafeValue;
    }
    hide Listed, Global;
  }

  /** Every element of an accepted document is a drawing element, and every attribute besides the declaration is
      harmless. */
  lemma OutputIsHarmless(tokens: seq<Token>, t: Token, i: nat)
    requires Sanitized(tokens).Some? && t in Sanitized(tokens).value && t.Start?
    requires |Declaration(t.name)| <= i < |t.attributes|
    ensures Listed(t.name).Some? && Harmless(t.attributes[i])
  {
    hide Sanitized, Nesting, Tops, AllowedAttribute, Listed;
    SanitizedIsSafe(tokens);
    assert CleanToken(t);
    AllowedIsHarmless(t.name, t.attributes[i]);
  }

  lemma PartNeedsItsCharacter(s: string, part: string, k: nat)
    requires k < |part| && Without(s, part[k])
    ensures !Contains(s, part)
  {
    if i :| 0 <= i <= |s| && HasPrefix(s[i..], part) {
      assert s[i + k] == s[i..][k] == part[k];
    }
  }

  lemma LowerWithout(s: string, c: char)
    requires Without(s, c) && c in {':', '(', '@', '/'}
    ensures Without(Lower(TrimSpace(s)), c)
  {
    TrimLeftWithout(s, c);
    TrimRightWithout(TrimLeft(s), c);
  }

  /** Drawing data always passes: values without markup, colon, parenthesis, slash and at sign. */
  lemma PlainValuesPass(name: string, value: string)
    requires name != "href"
    requires forall c :: c in {'<', '>', '\0', ':', '(', '@', '/'} ==> Without(value, c)
    ensures SafeValue(name, value)
  {
    hide Without, Lower, TrimSpace, Contains;
    var lower := Lower(TrimSpace(value));
    LowerWithout(value, ':');
    LowerWithout(value, '(');
    LowerWithout(value, '@');
    LowerWithout(value, '/');
    PartNeedsItsCharacter(lower, "javascript:", 10);
    PartNeedsItsCharacter(lower, "data:", 4);
    PartNeedsItsCharacter(lower, "@import", 0);
    PartNeedsItsCharacter(lower, "expression(", 10);
    PartNeedsItsCharacter(lower, "http:", 4);
    PartNeedsItsCharacter(lower, "https:", 5);
    PartNeedsItsCharacter(lower, "url(", 3);
    PrefixNeedsItsFirst(lower, "//");
  }

  lemma PrefixNeedsItsFirst(s: string, part: string)
    requires part != [] && Without(s, part[0])
    ensures !HasPrefix(s, part)
  {
  }

  /* ---------- Sanitizing again ---------- */

  /** How a written token is read back: the declared name space applies to the elements. */
  function Reread(t: Token): Token {
    match t
    case Start(_, name, attributes) => Start(SVG_NAMESPACE, name, attributes)
    case End(_, name) => End(SVG_NAMESPACE, name)
    case _ => t
  }

  function RereadAll(tokens: seq<Token>): seq<Token>
  {
    seq(|tokens|, i requires 0 <= i < |tokens| => Reread(tokens[i]))
  }

  lemma {:induction false} CleanAttributesStay(element: string, rest: seq<Attribute>)
    requires forall i ::
          0 <= i < |rest| ==> rest[i].space == "" && rest[i].name != "xmlns" && AllowedAttribute(element, rest[i])
    ensures Kept(element, Declaration(element) + rest) == Some(rest)
  {
    hide AllowedAttribute;
    if rest == [] {
      assert Declaration(element) + rest == Declaration(element);
    } else {
      var last := |rest| - 1;
      CleanAttributesStay(element, rest[..last]);
      JoinsLast(Declaration(element), rest);
      hide Declaration;
      assert rest[last].(space := "") == rest[last];
    }
  }

  lemma JoinsLast<T>(a: seq<T>, b: seq<T>)
    requires b != []
    ensures (a + b)[..|a + b| - 1] == a + b[..|b| - 1] && (a + b)[|a + b| - 1] == b[|b| - 1]
        && b == b[..|b| - 1] + [b[|b| - 1]]
  {
  }

  lemma RereadCleansToItself(t: Token)
    requires CleanToken(t)
    ensures Clean(Reread(t)) == Becomes(t)
  {
    hide AllowedAttribute, Kept, Listed;
    if t.Start? {
      var n := |Declaration(t.name)|;
      assert t.attributes == Declaration(t.name) + t.attributes[n..];
      CleanAttributesStay(t.name, t.attributes[n..]);
    }
  }

  lemma {:induction false} RereadAllCleansToItself(tokens: seq<Token>)
    requires forall t :: t in tokens ==> CleanToken(t)
    ensures CleanAll(RereadAll(tokens)) == tokens && forall t ::
          t in RereadAll(tokens) ==> Clean(t).Becomes? && !t.ProcInst?
  {
    hide Clean, CleanToken, Reread;
    if tokens != [] {
      var last := |tokens| - 1;
      RereadAllCleansToItself(tokens[..last]);
      assert RereadAll(tokens) == RereadAll(tokens[..last]) + [Reread(tokens[last])];
      CleanAllNext(RereadAll(tokens[..last]), Reread(tokens[last]));
      RereadCleansToItself(tokens[last]);
      RereadIsNoInstruction(tokens[last]);
      assert tokens == tokens[..last] + [tokens[last]];
    }
  }

  lemma RereadIsNoInstruction(t: Token)
    requires CleanToken(t)
    ensures !Reread(t).ProcInst?
  {
  }

  /** Sanitizing a sanitized document again, as it is read back, changes nothing. */
  lemma SanitizingIsIdempotent(tokens: seq<Token>)
    requires Sanitized(tokens).Some?
    ensures Sanitized(RereadAll(Sanitized(tokens).value)) == Sanitized(tokens)
  {
    hide Clean, CleanToken, Reread, Nesting, Tops, CleanAll, Sanitized;
    var output := Sanitized(tokens).value;
    SanitizedIsSafe(tokens);
    RereadAllCleansToItself(output);
    SanitizesExactly(RereadAll(output));
  }

  /* ---------- Repeated attributes ---------- */

  predicate DistinctNames(attributes: seq<Attribute>)
  {
    forall i, j :: 0 <= i < j < |attributes| ==> attributes[i].name != attributes[j].name
  }

  function WithoutDeclarations(attributes: seq<Attribute>): seq<Attribute> {
    if attributes == [] then []
    else
      var last := attributes[|attributes| - 1];
      WithoutDeclarations(attributes[..|attributes| - 1]) + (if last.name == "xmlns" then [] else [last])
  }

  lemma {:induction false} KeptNames(element: string, attributes: seq<Attribute>)
    requires Kept(element, attributes).Some?
    ensures var kept, named := Kept(element, attributes).value, WithoutDeclarations(attributes);
            |kept| == |named| && forall i :: 0 <= i < |kept| ==> kept[i].name == named[i].name != "xmlns"
  {
    hide AllowedAttribute;
    if attributes != [] {
      KeptNames(element, attributes[..|attributes| - 1]);
    }
  }

  /** An element comes out with distinct attribute names, as XML demands, exactly when its attributes other than name
      space declarations had distinct local names: dropping prefixes can make two attributes one. */
  lemma AttributesStayDistinct(t: Token)
    requires t.Start? && Clean(t).Becomes?
    ensures DistinctNames(Clean(t).token.attributes) <==> DistinctNames(WithoutDeclarations(t.attributes))
  {
    hide Kept, WithoutDeclarations;
    KeptNames(t.name, t.attributes);
    var d, kept, named := |Declaration(t.name)|, Kept(t.name, t.attributes).value, WithoutDeclarations(t.attributes);
    var a := Clean(t).token.attributes;
    assert a == Declaration(t.name) + kept;
    assert forall i :: d <= i < |a| ==> a[i] == kept[i - d];
    assert forall i :: 0 <= i < |kept| ==> a[i + d] == kept[i];
  }

  lemma ShortContainsNothing(s: string, part: string)
    requires |s| < |part|
    ensures !Contains(s, part) && !HasPrefix(s, part)
  {
  }

  lemma HashIsSafe(c: char)
    requires c == 'a' || c == 'b'
    ensures SafeValue("href", ['#', c])
  {
    var value := ['#', c];
    assert TrimLeft(value) == value && TrimRight(value) == value;
    assert Lower(value) == value;
    hide TrimSpace, Lower, Contains, HasPrefix;
    ShortContainsNothing(value, "javascript:");
    ShortContainsNothing(value, "data:");
    ShortContainsNothing(value, "@import");
    ShortContainsNothing(value, "expression(");
    ShortContainsNothing(value, "http:");
    ShortContainsNothing(value, "https:");
  }

  /** The document <svg><use href="#a" xlink:href="#b"/></svg>. */
  function TwoReferences(): seq<Token> {
    [Start("", "svg", []), Start("", "use", [Attribute("", "href", "#a"), Attribute("xlink", "href", "#b")]),
     End("", "use"), End("", "svg")]
  }

  lemma HrefIsAllowed(a: Attribute)
    requires a.name == "href" && (a.value == "#a" || a.value == "#b")
    ensures AllowedAttribute("use", a)
  {
    hide SafeValue, Listed;
    HashIsSafe(a.value[1]);
    assert a.value == ['#', a.value[1]];
    assert Lower(a.name)[0] == 'h';
    UseHasHref();
  }

  lemma UseHasHref()
    ensures Listed("use").Some? && "href" in Listed("use").value
  {
  }

  lemma KeptReferences(a: Attribute, b: Attribute)
    requires a == Attribute("", "href", "#a") && b == Attribute("xlink", "href", "#b")
    ensures Kept("use", [a, b]) == Some([a, b.(space := "")])
  {
    hide AllowedAttribute;
    HrefIsAllowed(a);
    HrefIsAllowed(b);
    assert [a, b][..1] == [a] && [a][..0] == [] && [] + [a] == [a] && a.(space := "") == a;
    assert Kept("use", []) == Some([]);
    assert Kept("use", [a]) == Some([a]);
    assert [a] + [b.(space := "")] == [a, b.(space := "")];
  }

  lemma CleanStarts(a: Attribute, b: Attribute)
    requires a == Attribute("", "href", "#a") && b == Attribute("xlink", "href", "#b")
    ensures Clean(Start("", "svg", [])) == Becomes(Start("", "svg", Declaration("svg")))
    ensures Clean(Start("", "use", [a, b])) == Becomes(Start("", "use", [a, b.(space := "")]))
    ensures forall name :: Clean(End("", name)) == Becomes(End("", name))
  {
    KeptReferences(a, b);
    UseHasHref();
    assert Kept("svg", []) == Some([]) && Declaration("use") == [];
    assert Declaration("svg") + [] == Declaration("svg") && [] + [a, b.(space := "")] == [a, b.(space := "")];
    hide Kept, Declaration;
  }

  lemma NextStart(s: State, t: Token, written: Token, next: State)
    requires Clean(t) == Becomes(written) && written.Start? && s.tokens < MAX_TOKENS && 0 <= s.depth < MAX_DEPTH
        && (s.depth == 0 ==> s.roots == 0 && written.name == "svg")
    requires next == State(s.depth + 1, if s.depth == 0 then 1 else s.roots, s.tokens + 1, s.open + [written.name],
                         s.output + [written])
    ensures Next(s, t) == Some(next)
  {
    hide Clean;
  }

  lemma NextEnd(s: State, t: Token, next: State)
    requires t.End? && t.space == "" && s.tokens < MAX_TOKENS && s.open == next.open + [t.name]
    requires next == State(s.depth - 1, s.roots, s.tokens + 1, next.open, s.output + [t])
    ensures Next(s, t) == Some(next)
  {
    assert s.open[..|s.open| - 1] == next.open;
  }

  lemma FedNext(tokens: seq<Token>, t: Token)
    requires Fed(tokens).Some?
    ensures Fed(tokens + [t]) == Next(Fed(tokens).value, t)
  {
    hide Next;
    assert (tokens + [t])[..|tokens|] == tokens;
  }

  lemma FedNothing()
    ensures Fed([]) == Some(START)
  {
  }

  /** A stream of two nested elements. */
  lemma TwoElements(tokens: seq<Token>, outer: Token, inner: Token)
    requires |tokens| == 4 && Clean(tokens[0]) == Becomes(outer) && Clean(tokens[1]) == Becomes(inner)
        && outer.Start? && outer.name == "svg" && inner.Start?
        && tokens[2] == End("", inner.name) && tokens[3] == End("", outer.name)
    ensures Sanitized(tokens) == Some([outer, inner, tokens[2], tokens[3]])
  {
    hide Next, Clean;
    var s1 := State(1, 1, 1, [outer.name], [outer]);
    var s2 := State(2, 1, 2, [outer.name, inner.name], [outer, inner]);
    var s3 := State(1, 1, 3, [outer.name], [outer, inner, tokens[2]]);
    NextStart(START, tokens[0], outer, s1);
    NextStart(s1, tokens[1], inner, s2);
    NextEnd(s2, tokens[2], s3);
    var s4 := State(0, 1, 4, [], s3.output + [tokens[3]]);
    assert s3.open == s4.open + [tokens[3].name];
    NextEnd(s3, tokens[3], s4);
    assert tokens[..0] == [] && tokens[..4] == tokens;
    forall i | 0 <= i < 4 ensures tokens[..i + 1] == tokens[..i] + [tokens[i]] {
    }
    hide Fed;
    FedNothing();
    FedNext(tokens[..0], tokens[0]);
    FedNext(tokens[..1], tokens[1]);
    FedNext(tokens[..2], tokens[2]);
    FedNext(tokens[..3], tokens[3]);
    assert s4.output == [outer, inner, tokens[2], tokens[3]];
  }

  /** It has no attribute twice and is accepted, but an element of its output has two attributes named href. */
  lemma PrefixesMakeAttributesCollide()
    ensures Sanitized(TwoReferences()) == Some([
                Start("", "svg", [Attribute("", "xmlns", SVG_NAMESPACE)]),
                Start("", "use", [Attribute("", "href", "#a"), Attribute("", "href", "#b")]),
                End("", "use"), End("", "svg")])
  {
    var a, b := Attribute("", "href", "#a"), Attribute("xlink", "href", "#b");
    CleanStarts(a, b);
    hide Sanitized, Clean;
    TwoElements(TwoReferences(), Start("", "svg", Declaration("svg")), Start("", "use", [a, b.(space := "")]));
  }
}

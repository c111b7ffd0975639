/** Template rendering (internal/template/service.go). */
module Template {
  import opened Domain
  import opened Ordering

  // ---- The placeholder pattern ----

  /** `\s` of the pattern. */
  predicate IsSpace(c: char)
  {
    c == '\t' || c == '\n' || c == '\U{0C}' || c == '\r' || c == ' '
  }

  /** `[a-zA-Z0-9_]`. */
  predicate IsWord(c: char)
  {
    'a' <= c <= 'z' || 'A' <= c <= 'Z' || '0' <= c <= '9' || c == '_'
  }

  /** What strings.TrimSpace removes. */
  predicate IsBlankChar(c: char)
  {
    '\t' <= c <= '\r' || c == ' ' || c == '\U{85}' || c == '\U{A0}' || c == '\U{1680}' || '\U{2000}' <= c <= '\U{200A}'
    || c == '\U{2028}' || c == '\U{2029}' || c == '\U{202F}' || c == '\U{205F}' || c == '\U{3000}'
  }

  predicate AllOf(s: string, p: char -> bool)
  {
    forall i :: 0 <= i < |s| ==> p(s[i])
  }

  /** The text of one placeholder, as the pattern `\{\{\s*([a-zA-Z0-9_]+)\s*\}\}` describes it. */
  predicate IsParts(text: string, pre: string, key: string, post: string)
  {
    && (forall i :: 0 <= i < |pre| ==> pre[i] in {' ', '\t', '\n', '\U{0C}', '\r'})
    && (forall i :: 0 <= i < |key| ==> 'a' <= key[i] <= 'z' || 'A' <= key[i] <= 'Z' || '0' <= key[i] <= '9' || key[i] == '_')
    && (forall i :: 0 <= i < |post| ==> post[i] in {' ', '\t', '\n', '\U{0C}', '\r'})
    && key != "" && text == "{{" + pre + key + post + "}}"
  }

  lemma PartsInClasses(text: string, pre: string, key: string, post: string)
    ensures IsParts(text, pre, key, post) <==>
            AllOf(pre, IsSpace) && AllOf(key, IsWord) && AllOf(post, IsSpace) && key != "" && text == "{{" + pre + key + post + "}}"
  {
  }

  ghost predicate IsPlaceholder(text: string, key: string)
  {
    exists pre, post :: IsParts(text, pre, key, post)
  }

  // ---- The scanner ----

  function Leading(s: string, p: char -> bool): (n: nat)
    ensures n <= |s| && AllOf(s[..n], p) && (n < |s| ==> !p(s[n]))
  {
    if s == "" || !p(s[0]) then 0 else 1 + Leading(s[1..], p)
  }

  /** A placeholder at the very start of s: its length and its key. */
  function Scan(s: string): Option<(nat, string)>
  {
    if |s| < 2 || s[0] != '{' || s[1] != '{' then None
    else
      var inner := s[2..];
      var a := Leading(inner, IsSpace);
      ScanKey(inner[a..], 2 + a)
  }

  function ScanKey(s: string, at: nat): Option<(nat, string)>
  {
    var b := Leading(s, IsWord);
    var tail := s[b..];
    var c := Leading(tail, IsSpace);
    var close := tail[c..];
    if b == 0 || |close| < 2 || close[0] != '}' || close[1] != '}' then None else Some((at + b + c + 2, s[..b]))
  }

  lemma {:induction false} LeadingIs(run: string, rest: string, p: char -> bool)
    requires AllOf(run, p) && (rest != "" ==> !p(rest[0]))
    ensures Leading(run + rest, p) == |run|
  {
    if run == "" {
      assert run + rest == rest;
    } else {
      LeadingIs(run[1..], rest, p);
      assert (run + rest)[1..] == run[1..] + rest;
      assert (run + rest)[0] == run[0];
    }
  }

  lemma Cut(a: string, b: string)
    ensures (a + b)[..|a|] == a && (a + b)[|a|..] == b
  {
  }

  lemma ScanKeyFinds(key: string, post: string, rest: string, at: nat)
    requires AllOf(key, IsWord) && key != "" && AllOf(post, IsSpace)
    ensures ScanKey(key + (post + ("}}" + rest)), at) == Some((at + |key| + |post| + 2, key))
  {
    hide AllOf, Leading;
    var close := "}}" + rest;
    var tail := post + close;
    SpaceThenBrace(post, rest);
    LeadingIs(key, tail, IsWord);
    LeadingIs(post, close, IsSpace);
    Cut(key, tail);
    Cut(post, close);
  }

  lemma SpaceThenBrace(post: string, rest: string)
    requires AllOf(post, IsSpace)
    ensures !IsWord((post + ("}}" + rest))[0])
  {
    assert (post + ("}}" + rest))[0] == if post == "" then '}' else post[0];
  }

  /** The scanner finds every placeholder, whatever follows it. */
  lemma ScanFinds(pre: string, key: string, post: string, rest: string)
    requires AllOf(pre, IsSpace) && AllOf(key, IsWord) && key != "" && AllOf(post, IsSpace)
    ensures Scan("{{" + pre + key + post + "}}" + rest) == Some((|pre| + |key| + |post| + 4, key))
  {
    hide ScanKey;
    var after := key + (post + ("}}" + rest));
    var s := "{{" + (pre + after);
    assert "{{" + pre + key + post + "}}" + rest == s;
    assert s[0] == '{' && s[1] == '{' && s[2..] == pre + after;
    assert after[0] == key[0];
    LeadingIs(pre, after, IsSpace);
    assert (pre + after)[|pre|..] == after;
    ScanKeyFinds(key, post, rest, 2 + |pre|);
  }

  lemma JoinKey(s: string, b: nat, c: nat)
    requires b + c + 2 <= |s| && s[b..][c..][0] == '}' && s[b..][c..][1] == '}'
    ensures s[..b + c + 2] == s[..b] + s[b..b + c] + "}}"
  {
    var n := b + c;
    assert s[n..n + 2] == "}}";
    assert s[..n + 2] == s[..n] + s[n..n + 2];
    assert s[..n] == s[..b] + s[b..n];
  }

  lemma ScanKeyIsSound(s: string, at: nat)
    requires ScanKey(s, at).Some?
    ensures var n := ScanKey(s, at).value.0 - at;
            0 < n <= |s| && exists post ::
              AllOf(post, IsSpace) && AllOf(ScanKey(s, at).value.1, IsWord) && ScanKey(s, at).value.1 != ""
              && s[..n] == ScanKey(s, at).value.1 + post + "}}"
  {
    hide AllOf, Leading;
    var b := Leading(s, IsWord);
    var c := Leading(s[b..], IsSpace);
    assert s[b..][..c] == s[b..b + c];
    JoinKey(s, b, c);
    assert AllOf(s[b..b + c], IsSpace);
  }

  /** Opening braces, blanks and the rest of a found placeholder join up to a prefix. */
  lemma JoinPrefix(s: string, a: nat, n: nat, tail: string)
    requires 2 + a <= n <= |s| && s[..2] == "{{" && s[2 + a..n] == tail
    ensures s[..n] == "{{" + s[2..2 + a] + tail
  {
    assert s[..n] == s[..2] + s[2..2 + a] + s[2 + a..n];
  }

  lemma Regroup(pre: string, key: string, post: string)
    ensures "{{" + pre + (key + post + "}}") == "{{" + pre + key + post + "}}"
  {
    assert (("{{" + pre) + (key + post)) + "}}" == ("{{" + pre) + ((key + post) + "}}");
    assert ("{{" + pre) + (key + post) == (("{{" + pre) + key) + post;
  }

  /** The scanner looks for a key after the opening braces and the blanks. */
  lemma ScanSteps(s: string)
    requires Scan(s).Some?
    ensures |s| >= 2 && s[..2] == "{{"
    ensures var a := Leading(s[2..], IsSpace);
            2 + a <= |s| && AllOf(s[2..2 + a], IsSpace) && Scan(s) == ScanKey(s[2 + a..], 2 + a)
  {
    hide ScanKey;
    var a := Leading(s[2..], IsSpace);
    assert s[2..][..a] == s[2..2 + a] && s[2..][a..] == s[2 + a..];
  }

  /** What the scanner finds is a placeholder. */
  lemma ScanIsSound(s: string)
    requires Scan(s).Some?
    ensures 4 < Scan(s).value.0 <= |s| && IsPlaceholder(s[..Scan(s).value.0], Scan(s).value.1)
  {
    hide Scan, ScanKey, AllOf, Leading;
    ScanSteps(s);
    var a := Leading(s[2..], IsSpace);
    var rest := s[2 + a..];
    ScanKeyIsSound(rest, 2 + a);
    var n, key := Scan(s).value.0, Scan(s).value.1;
    var post :| AllOf(post, IsSpace) && AllOf(key, IsWord) && key != "" && rest[..n - 2 - a] == key + post + "}}";
    assert rest[..n - 2 - a] == s[2 + a..n];
    JoinPrefix(s, a, n, key + post + "}}");
    Regroup(s[2..2 + a], key, post);
    PartsInClasses(s[..n], s[2..2 + a], key, post);
    assert IsParts(s[..n], s[2..2 + a], key, post);
  }

  /** The scanner decides the pattern: at any position at most one placeholder starts, and it is the one found. */
  lemma ScanIsExact(s: string, n: nat, key: string)
    requires n <= |s|
    ensures IsPlaceholder(s[..n], key) <==> Scan(s) == Some((n, key))
  {
    hide Scan, AllOf;
    if IsPlaceholder(s[..n], key) {
      var pre, post :| IsParts(s[..n], pre, key, post);
      PartsInClasses(s[..n], pre, key, post);
      ScanFinds(pre, key, post, s[n..]);
      assert s == s[..n] + s[n..];
    }
    if Scan(s).Some? {
      ScanIsSound(s);
    }
  }

  // ---- Segments ----

  datatype Segment = Literal(c: char) | Hole(text: string, key: string)

  function Text(g: Segment): string
  {
    match g
    case Literal(c) => [c]
    case Hole(text, _) => text
  }

  function Split(s: string): seq<Segment>
    decreases |s|
  {
    if s == "" then []
    else if Scan(s).Some? && 0 < Scan(s).value.0 <= |s| then [Hole(s[..Scan(s).value.0], Scan(s).value.1)] + Split(s[Scan(s).value.0..])
    else [Literal(s[0])] + Split(s[1..])
  }

  function Print(segments: seq<Segment>): string
  {
    if segments == [] then "" else Text(segments[0]) + Print(segments[1..])
  }

  /** Leftmost, non-overlapping: holes are placeholders, and no placeholder starts at a literal. */
  ghost predicate IsSegmentation(segments: seq<Segment>)
  {
    segments != [] ==>
      && (match segments[0]
          case Hole(text, key) => IsPlaceholder(text, key)
          case Literal(_) => forall n: nat, key :: n <= |Print(segments)| ==> !IsPlaceholder(Print(segments)[..n], key))
      && IsSegmentation(segments[1..])
  }

  lemma NothingStarts(s: string)
    requires Scan(s).None?
    ensures forall n: nat, key :: n <= |s| ==> !IsPlaceholder(s[..n], key)
  {
    forall n: nat, key | n <= |s| ensures !IsPlaceholder(s[..n], key) {
      ScanIsExact(s, n, key);
    }
  }

  /** Splitting loses nothing and is the leftmost segmentation. */
  lemma {:induction false} SplitIsLossless(s: string)
    ensures Print(Split(s)) == s && IsSegmentation(Split(s))
    decreases |s|
  {
    hide Scan, IsPlaceholder;
    if s != "" {
      if Scan(s).Some? {
        ScanIsSound(s);
        var n := Scan(s).value.0;
        SplitIsLossless(s[n..]);
        assert s == s[..n] + s[n..];
      } else {
        SplitIsLossless(s[1..]);
        assert s == [s[0]] + s[1..];
        assert Print(Split(s)) == s;
        NothingStarts(s);
      }
    }
  }

  /** A hole is what the splitter cuts off at that point. */
  lemma HoleIsSplit(text: string, key: string, rest: string)
    requires IsPlaceholder(text, key)
    ensures Split(text + rest) == [Hole(text, key)] + Split(rest)
  {
    hide Scan, IsPlaceholder;
    var s := text + rest;
    assert s[..|text|] == text && s[|text|..] == rest;
    ScanIsExact(s, |text|, key);
    ScanIsSound(s);
  }

  /** So is a literal, as long as no placeholder starts there. */
  lemma LiteralIsSplit(c: char, rest: string)
    requires forall n: nat, key :: n <= |[c] + rest| ==> !IsPlaceholder(([c] + rest)[..n], key)
    ensures Split([c] + rest) == [Literal(c)] + Split(rest)
  {
    hide Scan, IsPlaceholder;
    var s := [c] + rest;
    assert s[1..] == rest;
    if Scan(s).Some? {
      ScanIsSound(s);
      assert false;
    }
  }

  /** It is the only one. */
  lemma {:induction false} SegmentationIsUnique(segments: seq<Segment>)
    requires IsSegmentation(segments)
    ensures Split(Print(segments)) == segments
  {
    hide Scan, IsPlaceholder, Split;
    if segments == [] {
      SplitNothing();
    } else {
      SegmentationIsUnique(segments[1..]);
      assert segments == [segments[0]] + segments[1..];
      match segments[0]
      case Hole(text, key) => HoleIsSplit(text, key, Print(segments[1..]));
      case Literal(c) =>
        assert Print(segments) == [c] + Print(segments[1..]);
        LiteralIsSplit(c, Print(segments[1..]));
    }
  }

  lemma SplitNothing()
    ensures Split("") == []
  {
  }

  // ---- Rendering ----

  function TrimSpace(s: string): string
  {
    var t := s[Leading(s, IsBlankChar)..];
    TrimRight(t)
  }

  function TrimRight(s: string): string
  {
    if s != "" && IsBlankChar(s[|s| - 1]) then TrimRight(s[..|s| - 1]) else s
  }

  /** The replacement callback: the match is scanned again for its key, and an unknown key leaves it as it is. */
  function Replace(text: string, variables: map<string, string>): string
  {
    var found := Scan(text);
    if found.None? then text
    else
      var key := TrimSpace(found.value.1);
      if key in variables then variables[key] else text
  }

  /** Every match, leftmost first, replaced; the output is never scanned. */
  function RenderContent(content: string, variables: map<string, string>): string
    decreases |content|
  {
    if content == "" then ""
    else
      var found := Scan(content);
      if found.Some? && 0 < found.value.0 <= |content|
      then Replace(content[..found.value.0], variables) + RenderContent(content[found.value.0..], variables)
      else [content[0]] + RenderContent(content[1..], variables)
  }

  /** What a segment becomes. */
  function Fill(g: Segment, variables: map<string, string>): string
  {
    if g.Hole? && g.key in variables then variables[g.key] else Text(g)
  }

  function FillAll(segments: seq<Segment>, variables: map<string, string>): string
  {
    if segments == [] then "" else Fill(segments[0], variables) + FillAll(segments[1..], variables)
  }

  lemma WordsAreTrimmed(key: string)
    requires key != "" && AllOf(key, IsWord)
    ensures TrimSpace(key) == key
  {
    assert !IsBlankChar(key[0]) && !IsBlankChar(key[|key| - 1]);
    assert key[0..] == key;
  }

  lemma ReplaceFills(text: string, key: string, variables: map<string, string>)
    requires IsPlaceholder(text, key)
    ensures Replace(text, variables) == Fill(Hole(text, key), variables)
  {
    assert text[..|text|] == text;
    ScanIsExact(text, |text|, key);
    WordsAreTrimmed(key);
  }

  /** Rendering is substitution over the segmentation. */
  lemma {:induction false} RenderFillsSegments(content: string, variables: map<string, string>)
    ensures RenderContent(content, variables) == FillAll(Split(content), variables)
    decreases |content|
  {
    if content != "" {
      if Scan(content).Some? {
        ScanIsSound(content);
        var n := Scan(content).value.0;
        ReplaceFills(content[..n], Scan(content).value.1, variables);
        RenderFillsSegments(content[n..], variables);
      } else {
        RenderFillsSegments(content[1..], variables);
      }
    }
  }

  /** With no placeholder key supplied, rendering changes nothing. */
  lemma {:induction false} UnknownKeysStay(segments: seq<Segment>, variables: map<string, string>)
    requires forall i :: 0 <= i < |segments| && segments[i].Hole? ==> segments[i].key !in variables
    ensures FillAll(segments, variables) == Print(segments)
  {
    if segments != [] {
      UnknownKeysStay(segments[1..], variables);
    }
  }

  lemma RenderIsIdentity(content: string, variables: map<string, string>)
    requires forall i :: 0 <= i < |Split(content)| && Split(content)[i].Hole? ==> Split(content)[i].key !in variables
    ensures RenderContent(content, variables) == content
  {
    RenderFillsSegments(content, variables);
    UnknownKeysStay(Split(content), variables);
    SplitIsLossless(content);
  }

  // ---- Required variables ----

  /** strings.TrimSpace(v) == "". */
  predicate IsBlank(v: string)
  {
    forall i :: 0 <= i < |v| ==>
                  '\t' <= v[i] <= '\r' || '\U{2000}' <= v[i] <= '\U{200A}'
                  || v[i] in {' ', '\U{85}', '\U{A0}', '\U{1680}', '\U{2028}', '\U{2029}', '\U{202F}', '\U{205F}', '\U{3000}'}
  }

  lemma {:induction false} BlankIsTrimmedAway(v: string)
    ensures TrimSpace(v) == "" <==> IsBlank(v)
  {
    var n := Leading(v, IsBlankChar);
    if n == |v| {
      assert v[..n] == v && v[n..] == "";
    } else {
      TrimRightKeepsHead(v[n..]);
    }
  }

  lemma {:induction false} TrimRightKeepsHead(s: string)
    requires s != "" && !IsBlankChar(s[0])
    ensures TrimRight(s) != ""
  {
    if IsBlankChar(s[|s| - 1]) {
      TrimRightKeepsHead(s[..|s| - 1]);
    }
  }

  predicate IsMissing(key: string, variables: map<string, string>)
  {
    key !in variables || TrimSpace(variables[key]) == ""
  }

  function Missing(required: seq<string>, variables: map<string, string>): seq<string>
  {
    if required == [] then []
    else
      var last := required[|required| - 1];
      Missing(required[..|required| - 1], variables) + if IsMissing(last, variables) then [last] else []
  }

  method MissingVariables(required: seq<string>, variables: map<string, string>) returns (missing: seq<string>)
    ensures missing == Sort(Missing(required, variables), StringLeq)
  {
    missing := [];
    for i := 0 to |required|
      invariant missing == Missing(required[..i], variables)
    {
      var key := required[i];
      assert required[..i + 1][..i] == required[..i];
      if key !in variables || TrimSpace(variables[key]) == "" {
        missing := missing + [key];
      }
    }
    assert required[..|required|] == required;
    missing := Sort(missing, StringLeq);
  }

  /** The result is sorted and lists each missing occurrence, repeated names included. */
  lemma {:induction false} MissingIsExact(required: seq<string>, variables: map<string, string>, key: string)
    ensures var m := Sort(Missing(required, variables), StringLeq);
            && Sorted(m, StringLeq)
            && multiset(m)[key] == if key !in variables || IsBlank(variables[key]) then multiset(required)[key] else 0
  {
    StringOrder();
    SortIsSorted(Missing(required, variables), StringLeq);
    if key in variables {
      BlankIsTrimmedAway(variables[key]);
    }
    MissingCount(required, variables, key);
  }

  lemma {:induction false} MissingCount(required: seq<string>, variables: map<string, string>, key: string)
    ensures multiset(Missing(required, variables))[key] == if IsMissing(key, variables) then multiset(required)[key] else 0
    decreases |required|
  {
    hide IsMissing;
    if required != [] {
      var init, last := required[..|required| - 1], required[|required| - 1];
      MissingCount(init, variables, key);
      assert required == init + [last];
    }
  }

  datatype Template = Template(channel: Channel, content: string, required: seq<string>)

  datatype RenderError = TemplateNotFound | ChannelMismatch | VariablesMissing(names: seq<string>)

  method Render(tmpl: Option<Template>, channel: Channel, variables: map<string, string>) returns (r: Result<string, RenderError>)
    ensures r == Err(TemplateNotFound) <==> tmpl.None?
    ensures r == Err(ChannelMismatch) <==> tmpl.Some? && tmpl.value.channel != channel
    ensures r.Err? && r.error.VariablesMissing? <==>
            tmpl.Some? && tmpl.value.channel == channel && exists key :: key in tmpl.value.required && IsMissing(key, variables)
    ensures r.Err? && r.error.VariablesMissing? ==> r.error.names == Sort(Missing(tmpl.value.required, variables), StringLeq)
    ensures r.Ok? ==> r.value == FillAll(Split(tmpl.value.content), variables)
    ensures r.Ok? ==>
              forall i :: 0 <= i < |Split(tmpl.value.content)| && Split(tmpl.value.content)[i].Hole?
                          && Split(tmpl.value.content)[i].key in tmpl.value.required ==>
                            var g := Split(tmpl.value.content)[i];
                            g.key in variables && Fill(g, variables) == variables[g.key] && !IsBlank(variables[g.key])
  {
    if tmpl.None? {
      return Err(TemplateNotFound);
    }
    if tmpl.value.channel != channel {
      return Err(ChannelMismatch);
    }
    var missing := MissingVariables(tmpl.value.required, variables);
    ghost var required := tmpl.value.required;
    SortIsSorted(Missing(required, variables), StringLeq) by { StringOrder(); }
    if |missing| > 0 {
      assert missing[0] in multiset(missing);
      MissingCount(required, variables, missing[0]);
      return Err(VariablesMissing(missing));
    }
    forall key | key in required ensures !IsMissing(key, variables) && !IsBlank(variables[key]) {
      MissingCount(required, variables, key);
      if key in variables {
        BlankIsTrimmedAway(variables[key]);
      }
    }
    RenderFillsSegments(tmpl.value.content, variables);
    return Ok(RenderContent(tmpl.value.content, variables));
  }
}

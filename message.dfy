/** `construct_discord_message`: the Discord text announcing a new issue. */
module IssueMessage {
  import opened Notion
  import opened Extract
  import opened Validate
  import Text

  const Header: string := "\U{1F195} **Issue Created**\n"

  function PropertyLine(name: string, value: string): string {
    "**" + name + ":** " + value + "\n"
  }

  function LinkLine(url: string): string {
    "\U{1F517} [Open in Notion](" + url + ")"
  }

  /** The page's property `p` renders as `line`: its value is truthy and `line` shows it. */
  predicate RendersAs(page: Page, p: PropSpec, line: string) {
    var v := ExtractPropertyValue(page, p.name, p.kind);
    Truthy(v) && line == PropertyLine(p.name, v.value)
  }

  /** The line one configured property contributes: one line if its value is truthy, none otherwise. */
  function LinesFor(page: Page, p: PropSpec): seq<string> {
    var v := ExtractPropertyValue(page, p.name, p.kind);
    if Truthy(v) then [PropertyLine(p.name, v.value)] else []
  }

  function LineOf(page: Page): PropSpec -> seq<string> {
    p => LinesFor(page, p)
  }

  /** What `lineOf` gives for each property in turn, concatenated in list order. */
  function Collect(lineOf: PropSpec -> seq<string>, props: seq<PropSpec>): seq<string> {
    if props == [] then [] else Collect(lineOf, props[..|props| - 1]) + lineOf(props[|props| - 1])
  }

  /** The lines a list of configured properties contributes, in list order. */
  function RenderedLines(page: Page, props: seq<PropSpec>): seq<string> {
    Collect(LineOf(page), props)
  }

  /** The message the source builds: header, required lines, optional lines, link. */
  function Message(page: Page, config: Config): (m: string)
    ensures Header <= m
    ensures |LinkLine(page.url)| <= |m| && m[|m| - |LinkLine(page.url)|..] == LinkLine(page.url)
  {
    Header + Text.Concat(RenderedLines(page, config.required)) + Text.Concat(RenderedLines(page, config.optional))
      + LinkLine(page.url)
  }

  /** The two loops of `construct_discord_message`, appending to `message`. */
  method ConstructDiscordMessage(page: Page, config: Config) returns (message: string)
    ensures message == Message(page, config)
  {
    message := Header;
    for i := 0 to |config.required|
      invariant message == Header + Text.Concat(RenderedLines(page, config.required[..i]))
    {
      var prop := config.required[i];
      var value := ExtractPropertyValue(page, prop.name, prop.kind);
      AppendOne(page, Header, config.required, i);
      if Truthy(value) {
        message := message + PropertyLine(prop.name, value.value);
      }
    }
    assert config.required[..|config.required|] == config.required;
    ghost var head := message;
    for i := 0 to |config.optional|
      invariant message == head + Text.Concat(RenderedLines(page, config.optional[..i]))
    {
      var prop := config.optional[i];
      var value := ExtractPropertyValue(page, prop.name, prop.kind);
      AppendOne(page, head, config.optional, i);
      if Truthy(value) {
        message := message + PropertyLine(prop.name, value.value);
      }
    }
    assert config.optional[..|config.optional|] == config.optional;
    message := message + LinkLine(page.url);
  }

  /** One loop step: rendering one more property appends its line, if it has one. */
  lemma AppendOne(page: Page, prefix: string, props: seq<PropSpec>, i: nat)
    requires i < |props|
    ensures var v := ExtractPropertyValue(page, props[i].name, props[i].kind);
      prefix + Text.Concat(RenderedLines(page, props[..i + 1]))
      == prefix + Text.Concat(RenderedLines(page, props[..i])) + (if Truthy(v) then PropertyLine(props[i].name, v.value) else "")
  {
    var done := RenderedLines(page, props[..i]);
    var next := LinesFor(page, props[i]);
    CollectSnoc(LineOf(page), props, i);
    Text.ConcatAppend(done, next);
    if next != [] {
      Text.ConcatSingle(next[0]);
    }
    assert prefix + (Text.Concat(done) + Text.Concat(next)) == prefix + Text.Concat(done) + Text.Concat(next);
  }

  lemma CollectSnoc(lineOf: PropSpec -> seq<string>, props: seq<PropSpec>, i: nat)
    requires i < |props|
    ensures Collect(lineOf, props[..i + 1]) == Collect(lineOf, props[..i]) + lineOf(props[i])
  {
    assert props[..i + 1][..i] == props[..i];
  }

  lemma {:induction false} CollectSplit(lineOf: PropSpec -> seq<string>, a: seq<PropSpec>, b: seq<PropSpec>)
    ensures Collect(lineOf, a + b) == Collect(lineOf, a) + Collect(lineOf, b)
  {
    if b == [] {
      assert a + b == a;
    } else {
      var b' := b[..|b| - 1];
      assert (a + b)[..|a + b| - 1] == a + b';
      assert (a + b)[|a + b| - 1] == b[|b| - 1];
      CollectSplit(lineOf, a, b');
    }
  }

  /** Lines keep configuration order: the lines of `a + b` are those of `a`, then those of `b`. */
  lemma RenderedLinesSplit(page: Page, a: seq<PropSpec>, b: seq<PropSpec>)
    ensures RenderedLines(page, a + b) == RenderedLines(page, a) + RenderedLines(page, b)
  {
    CollectSplit(LineOf(page), a, b);
  }

  /** Every rendered line shows a configured property whose value is truthy. */
  lemma {:induction false} RenderedLinesSound(page: Page, props: seq<PropSpec>)
    ensures forall k :: 0 <= k < |RenderedLines(page, props)| ==>
              exists i :: 0 <= i < |props| && RendersAs(page, props[i], RenderedLines(page, props)[k])
  {
    if props != [] {
      var init := props[..|props| - 1];
      RenderedLinesSound(page, init);
      var lines := RenderedLines(page, props);
      forall k | 0 <= k < |lines|
        ensures exists i :: 0 <= i < |props| && RendersAs(page, props[i], lines[k])
      {
        assert lines == RenderedLines(page, init) + LinesFor(page, props[|props| - 1]);
        if k < |RenderedLines(page, init)| {
          assert lines[k] == RenderedLines(page, init)[k];
          var i :| 0 <= i < |init| && RendersAs(page, init[i], RenderedLines(page, init)[k]);
          assert props[i] == init[i];
          assert RendersAs(page, props[i], lines[k]);
        } else {
          assert RendersAs(page, props[|props| - 1], lines[k]);
        }
      }
    } else {
      assert RenderedLines(page, props) == [];
    }
  }

  /** Every configured property whose value is truthy has its line among the rendered lines. */
  lemma {:induction false} RenderedLinesComplete(page: Page, props: seq<PropSpec>, i: nat)
    requires i < |props| && Truthy(ExtractPropertyValue(page, props[i].name, props[i].kind))
    ensures PropertyLine(props[i].name, ExtractPropertyValue(page, props[i].name, props[i].kind).value)
              in RenderedLines(page, props)
  {
    if i < |props| - 1 {
      var init := props[..|props| - 1];
      assert init[i] == props[i];
      RenderedLinesComplete(page, init, i);
    }
  }

  /** Once validation has passed, the required block is exactly one line per
      required property, in configuration order. */
  lemma {:induction false} AllRequiredRendered(page: Page, required: seq<PropSpec>)
    requires AllRequiredPresent(page, required)
    ensures |RenderedLines(page, required)| == |required|
    ensures forall i :: 0 <= i < |required| ==>
              RenderedLines(page, required)[i]
              == PropertyLine(required[i].name, ExtractPropertyValue(page, required[i].name, required[i].kind).value)
  {
    if required != [] {
      var init := required[..|required| - 1];
      assert forall i :: 0 <= i < |init| ==> init[i] == required[i];
      AllRequiredRendered(page, init);
    }
  }

  /** The message is the header, the required lines, the optional lines and the
      link line, in that order; so it starts with the header and ends with the link. */
  lemma MessageLayout(page: Page, config: Config)
    ensures Message(page, config)
            == Text.Concat([Header] + RenderedLines(page, config.required) + RenderedLines(page, config.optional)
                           + [LinkLine(page.url)])
    ensures Header <= Message(page, config)
    ensures var m := Message(page, config); var link := LinkLine(page.url);
      |link| <= |m| && m[|m| - |link|..] == link
  {
    var req := RenderedLines(page, config.required);
    var opt := RenderedLines(page, config.optional);
    Text.ConcatAppend([Header] + req + opt, [LinkLine(page.url)]);
    Text.ConcatAppend([Header] + req, opt);
    Text.ConcatAppend([Header], req);
    Text.ConcatSingle(Header);
    Text.ConcatSingle(LinkLine(page.url));
  }
}

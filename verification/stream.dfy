/** The line-oriented reader of a streamed chat-completions body
    (main.py:84-103). JSON and UTF-8 decoding are foreign: a line arrives
    already decoded (or as undecodable bytes), and `json.loads` is an
    oracle `json: string -> Parsed` describing the decoded value's shape. */
module Stream {
  import opened Basics
  import opened Text

  /** One line produced by the body's line iterator. */
  datatype Line = Decoded(text: string) | Undecodable

  /** The value `delta.get('content')` returns: nothing (absent or JSON
      null), a string, or another JSON value whose truth value is given. */
  datatype ContentValue = NoContent | Str(s: string) | NonStr(truthy: bool)

  /** The `delta` key of a choice: absent (the code defaults it to `{}`),
      a JSON object, or some other JSON value (which has no `.get`). */
  datatype DeltaField = NoDelta | DeltaObject(content: ContentValue) | NonObjectDelta

  /** An element of the `choices` list: a JSON object, or some other value. */
  datatype ChoiceItem = ObjectItem(delta: DeltaField) | NonObjectItem

  /** The `choices` key of a chunk: absent, a JSON list, or some other value;
      for the latter `sizedEmpty` says whether it is an empty string or an
      empty object (so `len(...) > 0` is simply false) rather than something
      whose `len` or `[0]` raises. */
  datatype ChoicesField = Missing | List(items: seq<ChoiceItem>) | NonList(sizedEmpty: bool)

  /** What `json.loads(payload)` yields: a decode error, an object, or a
      value of another JSON type; for the latter `raises` says whether the
      membership test or subscript on it raises (a number, a boolean, null,
      or an array or string that contains "choices"). */
  datatype Parsed = Malformed | Object(choices: ChoicesField) | NonObject(raises: bool)

  /** What one line does to the response being assembled: append text (the
      empty string when the line is skipped), or raise an exception that the
      line loop does not catch. */
  datatype Effect = Adds(text: string) | Raises

  /** The result of reading a whole body: the assembled reply, or an
      exception that abandoned the read. */
  datatype Assembly = Done(full: string) | Aborted

  const DataPrefix: string := "data: "
  const DoneMarker: string := "[DONE]"

  /** The event payload of a line: for a non-empty line whose stripped text
      begins with `data: `, the stripped text after those six characters.
      A payload is never empty and never ends in whitespace, and an
      undecodable line has none. */
  function Payload(line: Line): (p: Option<string>)
    ensures line.Undecodable? ==> p.None?
    ensures p.Some? ==> |p.value| > 0 && !IsSpace(p.value[|p.value| - 1])
  {
    match line
    case Undecodable => None
    case Decoded(t) =>
      var s := Strip(t);
      if t != "" && StartsWith(s, DataPrefix) then
        assert s[|DataPrefix| - 1] == ' ';
        Some(s[|DataPrefix|..])
      else None
  }

  /** `t` is the event line `data: p` with whitespace on either side, where
      `p` is non-empty and does not end in whitespace. */
  ghost predicate DataLine(t: string, p: string)
  {
    && |p| > 0 && !IsSpace(p[|p| - 1])
    && exists w1, w2 :: AllSpace(w1) && AllSpace(w2) && t == w1 + DataPrefix + p + w2
  }

  /** The shape of an event line: a line yields payload `p` exactly when it
      is `data: p` with whitespace on either side, where `p` is non-empty
      and does not end in whitespace. */
  lemma PayloadShape(t: string, p: string)
    ensures Payload(Decoded(t)) == Some(p) <==> DataLine(t, p)
  {
    if Payload(Decoded(t)) == Some(p) {
      PayloadShapeForward(t, p);
    }
    if DataLine(t, p) {
      var w1, w2 :| AllSpace(w1) && AllSpace(w2) && t == w1 + DataPrefix + p + w2;
      PayloadShapeBackward(w1, p, w2);
    }
  }

  /** A line with a payload is that payload after `data: `, with whitespace
      on either side. */
  lemma PayloadShapeForward(t: string, p: string)
    requires Payload(Decoded(t)) == Some(p)
    ensures DataLine(t, p)
  {
    var n, r := LeadingSpaces(t), Strip(t);
    var w1, w2 := t[..n], t[n + |r|..];
    StripSides(t);
    PrefixRest(r, DataPrefix);
    SpacedPayload(t, w1, p, w2);
  }

  /** Names the whitespace around `data: p` in `t` as a witness. */
  lemma SpacedPayload(t: string, w1: string, p: string, w2: string)
    requires AllSpace(w1) && AllSpace(w2) && t == w1 + (DataPrefix + p) + w2
    ensures exists a, b :: AllSpace(a) && AllSpace(b) && t == a + DataPrefix + p + b
  {
    assert t == w1 + DataPrefix + p + w2;
  }

  /** `data: p` with whitespace on either side yields payload `p`. */
  lemma PayloadShapeBackward(w1: string, p: string, w2: string)
    requires AllSpace(w1) && AllSpace(w2)
    requires |p| > 0 && !IsSpace(p[|p| - 1])
    ensures Payload(Decoded(w1 + DataPrefix + p + w2)) == Some(p)
  {
    StripDataLine(w1, p, w2);
    PrefixConcat(DataPrefix, p);
  }

  /** `data: p` with whitespace on either side strips to `data: p`. */
  lemma StripDataLine(w1: string, p: string, w2: string)
    requires AllSpace(w1) && AllSpace(w2)
    requires |p| > 0 && !IsSpace(p[|p| - 1])
    ensures Strip(w1 + DataPrefix + p + w2) == DataPrefix + p
  {
    var x := DataPrefix + p;
    assert w1 + DataPrefix + p + w2 == w1 + x + w2;
    assert x[0] == 'd' && x[|x| - 1] == p[|p| - 1];
    StripSurrounded(w1, x, w2);
  }

  /** An event line `data: <p>` followed by any trailing whitespace (the
      line terminator included) yields back the payload `p`, provided `p`
      itself does not end in whitespace. */
  lemma DataLineRoundTrip(p: string, tail: string)
    requires |p| > 0 && !IsSpace(p[|p| - 1])
    requires AllSpace(tail)
    ensures Payload(Decoded(DataPrefix + p + tail)) == Some(p)
  {
    var x := DataPrefix + p;
    assert x + tail == DataPrefix + p + tail;
    assert x[0] == 'd' && x[|x| - 1] == p[|p| - 1];
    StripPadded(x, tail);
    assert x[..|DataPrefix|] == DataPrefix;
    assert x[|DataPrefix|..] == p;
  }

  /** An event line with an empty payload is not an event at all: `strip()`
      also removes the space that ends the `data: ` prefix. */
  lemma EmptyDataLineIgnored(tail: string)
    requires AllSpace(tail)
    ensures Payload(Decoded(DataPrefix + tail)) == None
  {
    var x := "data:";
    assert DataPrefix + tail == x + ([' '] + tail);
    StripPadded(x, [' '] + tail);
    assert |Strip(DataPrefix + tail)| < |DataPrefix|;
  }

  /** The effect of the value found at `delta.get('content')`. */
  function ContentEffect(c: ContentValue): Effect
  {
    match c
    case NoContent => Adds("")
    case Str(s) => Adds(s)
    case NonStr(truthy) => if truthy then Raises else Adds("")
  }

  /** The effect of a decoded chunk (main.py:93-99). */
  function ChunkEffect(chunk: Parsed): Effect
  {
    match chunk
    case Malformed => Adds("")
    case NonObject(raises) => if raises then Raises else Adds("")
    case Object(Missing) => Adds("")
    case Object(NonList(sizedEmpty)) => if sizedEmpty then Adds("") else Raises
    case Object(List(items)) =>
      if |items| == 0 then Adds("")
      else match items[0]
        case NonObjectItem => Raises
        case ObjectItem(NoDelta) => Adds("")
        case ObjectItem(NonObjectDelta) => Raises
        case ObjectItem(DeltaObject(c)) => ContentEffect(c)
  }

  /** The effect of a decoded line with the given event payload (main.py:89-99). */
  function PayloadEffect(payload: Option<string>, json: string -> Parsed): Effect
  {
    match payload
    case None => Adds("")
    case Some(p) => if p == DoneMarker then Adds("") else ChunkEffect(json(p))
  }

  /** The effect of one line of the body (main.py:87-101). */
  function LineEffect(line: Line, json: string -> Parsed): Effect
  {
    if line.Undecodable? then Raises else PayloadEffect(Payload(line), json)
  }

  /** The effects of a body's lines, in order. */
  function Effects(lines: seq<Line>, json: string -> Parsed): seq<Effect>
  {
    seq(|lines|, k requires 0 <= k < |lines| => LineEffect(lines[k], json))
  }

  /** The effects of a concatenated body are the effects of its parts. */
  lemma EffectsAppend(a: seq<Line>, b: seq<Line>, json: string -> Parsed)
    ensures Effects(a + b, json) == Effects(a, json) + Effects(b, json)
  {
    var l, r := Effects(a + b, json), Effects(a, json) + Effects(b, json);
    forall k | 0 <= k < |l|
      ensures l[k] == r[k]
    {
      if k < |a| {
        assert (a + b)[k] == a[k];
        assert r[k] == Effects(a, json)[k];
      } else {
        assert (a + b)[k] == b[k - |a|];
        assert r[k] == Effects(b, json)[k - |a|];
      }
    }
  }

  /** The text an effect appends, if it does not raise. */
  function TextOf(e: Effect): string
  {
    if e.Adds? then e.text else ""
  }

  /** Reading one part of a body and then the next. */
  function Join(a: Assembly, b: Assembly): Assembly
  {
    if a.Done? && b.Done? then Done(a.full + b.full) else Aborted
  }

  /** The loop of main.py:86-101 over the lines' effects: from the first on,
      appending each text and abandoning the read at the first raise. */
  function Fold(es: seq<Effect>): Assembly
    decreases |es|
  {
    if |es| == 0 then Done("")
    else match es[0]
      case Raises => Aborted
      case Adds(t) => Join(Done(t), Fold(es[1..]))
  }

  /** Reading a whole body. */
  function Assemble(lines: seq<Line>, json: string -> Parsed): Assembly
  {
    Fold(Effects(lines, json))
  }

  /** Some effect raises. */
  predicate AnyRaises(es: seq<Effect>)
  {
    exists k :: 0 <= k < |es| && es[k].Raises?
  }

  /** Reference definition of the reply: the texts of all effects, in order. */
  function Contributions(es: seq<Effect>): string
    decreases |es|
  {
    if |es| == 0 then "" else Contributions(es[..|es| - 1]) + TextOf(es[|es| - 1])
  }

  /** The reference reply split after its first effect. */
  lemma {:induction false} ContributionsCons(es: seq<Effect>)
    requires |es| > 0
    ensures Contributions(es) == TextOf(es[0]) + Contributions(es[1..])
    decreases |es|
  {
    if |es| > 1 {
      var init := es[..|es| - 1];
      ContributionsCons(init);
      assert init[1..] == es[1..][..|es[1..]| - 1];
      assert init[0] == es[0];
    } else {
      assert es[..0] == [];
    }
  }

  /** The reader is the reference: it aborts exactly when some effect
      raises, and otherwise yields every text in arrival order. */
  lemma {:induction false} FoldMatchesReference(es: seq<Effect>)
    ensures Fold(es) == if AnyRaises(es) then Aborted else Done(Contributions(es))
    decreases |es|
  {
    if |es| > 0 {
      FoldMatchesReference(es[1..]);
      ContributionsCons(es);
      if es[0].Raises? {
        assert AnyRaises(es);
      } else if AnyRaises(es[1..]) {
        var k :| 0 <= k < |es[1..]| && es[1..][k].Raises?;
        assert es[k + 1].Raises?;
      } else {
        forall k | 0 <= k < |es|
          ensures !es[k].Raises?
        {
          if k > 0 {
            assert es[k] == es[1..][k - 1];
          }
        }
      }
    }
  }

  /** Reading a concatenation is reading the parts one after the other. */
  lemma {:induction false} FoldAppend(a: seq<Effect>, b: seq<Effect>)
    ensures Fold(a + b) == Join(Fold(a), Fold(b))
    decreases |a|
  {
    if |a| == 0 {
      assert a + b == b;
    } else {
      assert (a + b)[0] == a[0];
      assert (a + b)[1..] == a[1..] + b;
      FoldAppend(a[1..], b);
    }
  }

  /** Reading a concatenated body is reading its parts one after the other. */
  lemma AssembleAppend(a: seq<Line>, b: seq<Line>, json: string -> Parsed)
    ensures Assemble(a + b, json) == Join(Assemble(a, json), Assemble(b, json))
  {
    EffectsAppend(a, b, json);
    FoldAppend(Effects(a, json), Effects(b, json));
  }

  /** A body of one line is read as that line's effect. */
  lemma AssembleSingle(line: Line, json: string -> Parsed)
    ensures Assemble([line], json) ==
            if LineEffect(line, json).Raises? then Aborted else Done(TextOf(LineEffect(line, json)))
  {
    var es := Effects([line], json);
    assert es[0] == LineEffect(line, json);
    assert Fold(es[1..]) == Done("");
    if es[0].Adds? {
      assert Fold(es) == Done(es[0].text + "");
      assert es[0].text + "" == es[0].text;
    }
  }

  /** A line that appends nothing — the `[DONE]` marker, a malformed JSON
      payload, a line that is not a `data: ` event — neither ends the read
      nor changes it: the lines after it are still read. */
  lemma SilentLineTransparent(pre: seq<Line>, line: Line, post: seq<Line>, json: string -> Parsed)
    requires LineEffect(line, json) == Adds("")
    ensures Assemble(pre + [line] + post, json) == Join(Assemble(pre, json), Assemble(post, json))
  {
    var a := Assemble(pre, json);
    AssembleSingle(line, json);
    AssembleAppend(pre, [line], json);
    assert Assemble(pre + [line], json) == Join(a, Done(""));
    if a.Done? {
      assert a.full + "" == a.full;
    }
    assert Join(a, Done("")) == a;
    AssembleAppend(pre + [line], post, json);
  }

  /** The lines that append nothing and do not raise: everything except a
      well-formed chunk whose first choice's delta has non-empty string
      content, and the shapes on which the chunk access raises. */
  lemma LineEffectCases(line: Line, json: string -> Parsed)
    ensures line.Undecodable? ==> LineEffect(line, json) == Raises
    ensures line.Decoded? && Payload(line).None? ==> LineEffect(line, json) == Adds("")
    ensures Payload(line) == Some(DoneMarker) ==> LineEffect(line, json) == Adds("")
    ensures Payload(line).Some? && json(Payload(line).value) == Malformed ==> LineEffect(line, json) == Adds("")
    ensures Payload(line).Some? && Payload(line).value != DoneMarker &&
            json(Payload(line).value) in {Object(Missing), Object(List([])), Object(NonList(true))}
            ==> LineEffect(line, json) == Adds("")
  {
  }

  /** A line appends text exactly when it is a `data: ` event other than the
      marker whose JSON is an object with a non-empty `choices` list whose
      first element's `delta.content` is a non-empty string; what it appends
      is that string. */
  lemma LineContributes(line: Line, json: string -> Parsed, t: string)
    requires t != ""
    ensures var payload := Payload(line);
      LineEffect(line, json) == Adds(t) <==>
      exists items: seq<ChoiceItem> ::
        && payload.Some?
        && payload.value != DoneMarker
        && json(payload.value) == Object(List(items))
        && |items| > 0
        && items[0] == ObjectItem(DeltaObject(Str(t)))
  {
    PayloadContributes(Payload(line), json, t);
  }

  /** `LineContributes` for a payload given as a value. */
  lemma PayloadContributes(payload: Option<string>, json: string -> Parsed, t: string)
    requires t != ""
    ensures PayloadEffect(payload, json) == Adds(t) <==>
      exists items: seq<ChoiceItem> ::
        && payload.Some?
        && payload.value != DoneMarker
        && json(payload.value) == Object(List(items))
        && |items| > 0
        && items[0] == ObjectItem(DeltaObject(Str(t)))
  {
    var e := PayloadEffect(payload, json);
    if e == Adds(t) {
      var items := json(payload.value).choices.items;
      assert items[0] == ObjectItem(DeltaObject(Str(t)));
    } else if payload.Some? && payload.value != DoneMarker {
      assert e == ChunkEffect(json(payload.value));
    }
  }

  /** A chunk whose first choice has no `delta`, or whose content is absent,
      null, the empty string or another falsy value, adds nothing and does
      not raise. */
  lemma ContentSkipped(line: Line, json: string -> Parsed, items: seq<ChoiceItem>)
    requires Payload(line).Some? && Payload(line).value != DoneMarker
    requires json(Payload(line).value) == Object(List(items)) && |items| > 0
    requires items[0] in {ObjectItem(NoDelta), ObjectItem(DeltaObject(NoContent)),
                          ObjectItem(DeltaObject(Str(""))), ObjectItem(DeltaObject(NonStr(false)))}
    ensures LineEffect(line, json) == Adds("")
  {
  }

  /** A line raises exactly when its bytes are not UTF-8, or it is an event
      other than the marker whose chunk the access at main.py:94-99 fails on:
      a non-object on which the membership test or subscript raises, a
      non-list `choices` whose `len` or `[0]` raises, or a first choice that
      is not an object, has a non-object `delta`, or has truthy non-string
      content. */
  lemma LineRaises(line: Line, json: string -> Parsed)
    ensures var payload := Payload(line);
      LineEffect(line, json) == Raises <==>
      || line.Undecodable?
      || (&& payload.Some? && payload.value != DoneMarker
          && var c := json(payload.value);
          || c == NonObject(true)
          || c == Object(NonList(false))
          || (&& c.Object? && c.choices.List? && |c.choices.items| > 0
              && c.choices.items[0] in {NonObjectItem, ObjectItem(NonObjectDelta), ObjectItem(DeltaObject(NonStr(true)))}))
  {
    PayloadRaises(Payload(line), json);
  }

  /** `LineRaises` for a payload given as a value. */
  lemma PayloadRaises(payload: Option<string>, json: string -> Parsed)
    ensures PayloadEffect(payload, json) == Raises <==>
      && payload.Some? && payload.value != DoneMarker
      && var c := json(payload.value);
      || c == NonObject(true)
      || c == Object(NonList(false))
      || (&& c.Object? && c.choices.List? && |c.choices.items| > 0
          && c.choices.items[0] in {NonObjectItem, ObjectItem(NonObjectDelta), ObjectItem(DeltaObject(NonStr(true)))})
  {
  }

  /** Extending a prefix of the effects by one extends the reference reply
      by that effect's text and raises only if the old prefix or the effect does. */
  lemma PrefixStep(es: seq<Effect>, i: nat)
    requires i < |es|
    ensures Contributions(es[..i + 1]) == Contributions(es[..i]) + TextOf(es[i])
    ensures AnyRaises(es[..i + 1]) <==> AnyRaises(es[..i]) || es[i].Raises?
  {
    var next := es[..i + 1];
    assert next[..i] == es[..i];
    assert next[i] == es[i];
    if AnyRaises(next) && !es[i].Raises? {
      var k :| 0 <= k < |next| && next[k].Raises?;
      assert k < i && next[k] == es[..i][k];
    }
    if AnyRaises(es[..i]) {
      var k :| 0 <= k < i && es[..i][k].Raises?;
      assert next[k] == es[..i][k];
    }
  }

  /** The effects raise exactly when some line raises. */
  lemma EffectsRaise(lines: seq<Line>, json: string -> Parsed)
    ensures AnyRaises(Effects(lines, json)) <==> exists k :: 0 <= k < |lines| && LineEffect(lines[k], json).Raises?
  {
    var es := Effects(lines, json);
    if AnyRaises(es) {
      var k :| 0 <= k < |es| && es[k].Raises?;
      assert LineEffect(lines[k], json).Raises?;
    }
    if exists k :: 0 <= k < |lines| && LineEffect(lines[k], json).Raises? {
      var k :| 0 <= k < |lines| && LineEffect(lines[k], json).Raises?;
      assert es[k].Raises?;
    }
  }

  /** The reading loop of main.py:84-101 as a method: `full` grows by each
      line's text and the first raising line abandons the read. */
  method ReadBody(lines: seq<Line>, json: string -> Parsed) returns (a: Assembly)
    ensures a.Aborted? <==> exists k :: 0 <= k < |lines| && LineEffect(lines[k], json).Raises?
    ensures a.Done? ==> a.full == Contributions(Effects(lines, json))
    ensures a == Assemble(lines, json)
  {
    ghost var es := Effects(lines, json);
    assert |es| == |lines|;
    var full := "";
    var i := 0;
    while i < |lines|
      invariant 0 <= i <= |lines|
      invariant !AnyRaises(es[..i])
      invariant full == Contributions(es[..i])
    {
      var e := LineEffect(lines[i], json);
      assert es[i] == e;
      if e.Raises? {
        assert es[i].Raises?;
        FoldMatchesReference(es);
        EffectsRaise(lines, json);
        return Aborted;
      }
      PrefixStep(es, i);
      full := full + e.text;
      i := i + 1;
    }
    assert es[..i] == es;
    FoldMatchesReference(es);
    EffectsRaise(lines, json);
    return Done(full);
  }

  /** The chunk a service sends for one token of text. */
  function TokenChunk(t: string): Parsed
  {
    Object(List([ObjectItem(DeltaObject(Str(t)))]))
  }

  /** Two token events around a `[DONE]` marker: the reply is the two tokens
      concatenated in arrival order, and the marker does not end the read. */
  lemma TokensAroundDone(p1: string, t1: string, p2: string, t2: string, json: string -> Parsed)
    requires |p1| > 0 && !IsSpace(p1[|p1| - 1]) && p1 != DoneMarker && json(p1) == TokenChunk(t1)
    requires |p2| > 0 && !IsSpace(p2[|p2| - 1]) && p2 != DoneMarker && json(p2) == TokenChunk(t2)
    ensures Assemble([Decoded(DataPrefix + p1 + "\n"), Decoded(DataPrefix + DoneMarker + "\n"),
                      Decoded(DataPrefix + p2 + "\n")], json)
            == Done(t1 + t2)
  {
    var l1, l2, l3 := Decoded(DataPrefix + p1 + "\n"), Decoded(DataPrefix + DoneMarker + "\n"),
                      Decoded(DataPrefix + p2 + "\n");
    TokenLineEffect(p1, t1, json);
    DoneLineEffect(json);
    TokenLineEffect(p2, t2, json);
    AssembleSingle(l1, json);
    AssembleSingle(l3, json);
    SilentLineTransparent([l1], l2, [l3], json);
    assert [l1] + [l2] + [l3] == [l1, l2, l3];
  }

  /** The event line `data: <p>` whose chunk is one token adds that token. */
  lemma TokenLineEffect(p: string, t: string, json: string -> Parsed)
    requires |p| > 0 && !IsSpace(p[|p| - 1]) && p != DoneMarker && json(p) == TokenChunk(t)
    ensures LineEffect(Decoded(DataPrefix + p + "\n"), json) == Adds(t)
  {
    var line := Decoded(DataPrefix + p + "\n");
    DataLineRoundTrip(p, "\n");
    assert LineEffect(line, json) == ChunkEffect(json(p));
    TokenChunkEffect(t);
  }

  /** A one-token chunk adds its token. */
  lemma TokenChunkEffect(t: string)
    ensures ChunkEffect(TokenChunk(t)) == Adds(t)
  {
    var items := [ObjectItem(DeltaObject(Str(t)))];
    assert TokenChunk(t) == Object(List(items));
    assert |items| == 1 && items[0] == ObjectItem(DeltaObject(Str(t)));
  }

  /** The terminator line `data: [DONE]` adds nothing and does not raise. */
  lemma DoneLineEffect(json: string -> Parsed)
    ensures LineEffect(Decoded(DataPrefix + DoneMarker + "\n"), json) == Adds("")
  {
    DataLineRoundTrip(DoneMarker, "\n");
  }
}

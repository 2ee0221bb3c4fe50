/** The foreground command loop of `AIChatBot.process_realtime_audio`
    (main.py:131-147). The microphone callback runs concurrently and only
    appends to a buffer; the model sees, at each command, the blocks it
    wrote while the prompt waited and the blocks it wrote afterwards, in
    the pass that read the command. */
module Capture {
  import opened Basics
  import opened Text
  import opened Messages
  import opened Stream
  import opened ChatBot

  /** What the loop does with one line of user input. */
  datatype Decision = Quit | Send(audio: seq<byte>) | NoAudio

  /** The bytes a buffer holds; a buffer the callback has not yet created holds none. */
  function Contents(buffer: Option<seq<byte>>): seq<byte>
  {
    if buffer.Some? then buffer.value else []
  }

  /** The decision of main.py:135-145: quit on any case variant of "quit",
      otherwise send a buffer that exists and is non-empty, otherwise report
      that no audio was captured. */
  function Decide(input: string, buffer: Option<seq<byte>>): (d: Decision)
    ensures d == Quit <==> Lower(input) == "quit"
    ensures d.Send? <==> Lower(input) != "quit" && |Contents(buffer)| > 0
    ensures d.Send? ==> d.audio == Contents(buffer)
  {
    if Lower(input) == "quit" then Quit
    else if buffer.Some? && |buffer.value| > 0 then Send(buffer.value)
    else NoAudio
  }

  /** All blocks of a sequence, end to end. */
  function Flatten(blocks: seq<seq<byte>>): seq<byte>
    decreases |blocks|
  {
    if |blocks| == 0 then [] else blocks[0] + Flatten(blocks[1..])
  }

  /** Flattening distributes over concatenation of block sequences. */
  lemma {:induction false} FlattenAppend(a: seq<seq<byte>>, b: seq<seq<byte>>)
    ensures Flatten(a + b) == Flatten(a) + Flatten(b)
    decreases |a|
  {
    if |a| == 0 {
      assert a + b == b;
    } else {
      assert (a + b)[1..] == a[1..] + b;
      FlattenAppend(a[1..], b);
    }
  }

  /** Sequence concatenation is associative. Dafny knows this on its own, but
      inside the conservation proof below the solver does not find it within
      its resource budget unless the instance is named. */
  lemma ConcatAssoc(a: seq<byte>, b: seq<byte>, c: seq<byte>)
    ensures (a + b) + c == a + (b + c)
  {
  }

  /** The buffer after the callback wrote `written`: created on the first
      write, and grown by each block in order. */
  function Absorb(buffer: Option<seq<byte>>, written: seq<seq<byte>>): (b: Option<seq<byte>>)
    ensures Contents(b) == Contents(buffer) + Flatten(written)
    ensures b.None? <==> buffer.None? && |written| == 0
  {
    if |written| == 0 then buffer else Some(Contents(buffer) + Flatten(written))
  }

  /** One pass of the loop. `written` holds the blocks the callback wrote
      while the prompt waited (main.py:133), `input` the line typed there,
      `reply` what the realtime endpoint answers should this pass send, and
      `late` the blocks the callback writes after the decision: when the
      pass sends, those written after the buffer is read (main.py:139) and
      before it is replaced (main.py:143); otherwise those written before
      the next prompt. Blocks written between the prompt returning and the
      read belong to `written`. */
  datatype Tick = Tick(written: seq<seq<byte>>, input: string, reply: Http<RealtimeBody>, late: seq<seq<byte>>)

  /** The state the loop leaves behind: the history, the payloads sent (in
      order), for each payload the bytes written into the sent buffer while
      its request was in flight, which main.py:143 discards, whether the
      loop ended on "quit" rather than on end of input, and the buffer. */
  datatype Session = Session(history: seq<Message>, sent: seq<seq<byte>>, dropped: seq<seq<byte>>,
                             quit: bool, buffer: Option<seq<byte>>)

  /** The loop over a finite run of commands; running out of commands is the
      end of input, which ends the loop like the handler at main.py:146-147.
      A sent buffer is replaced by a fresh empty one (main.py:143), so what
      the callback wrote into it during the request is lost; `encode` is the
      base64 encoding of main.py:140. */
  function RunCapture(history: seq<Message>, buffer: Option<seq<byte>>, ticks: seq<Tick>,
                      encode: seq<byte> -> string): (s: Session)
    ensures |history| + |s.sent| <= |s.history| <= |history| + 2 * |s.sent|
    ensures s.history[..|history|] == history
    ensures forall k :: 0 <= k < |s.sent| ==> |s.sent[k]| > 0
    ensures |s.dropped| == |s.sent|
    ensures s.quit ==> |ticks| > 0
    decreases |ticks|
  {
    if |ticks| == 0 then Session(history, [], [], false, buffer)
    else
      var t := ticks[0];
      var buf := Absorb(buffer, t.written);
      match Decide(t.input, buf)
      case Quit => Session(history, [], [], true, Absorb(buf, t.late))
      case NoAudio => RunCapture(history, Absorb(buf, t.late), ticks[1..], encode)
      case Send(audio) =>
        var x := SendMessage(history, encode(audio), "user", "audio", HttpFailure, t.reply, _ => Malformed);
        var rest := RunCapture(x.history, Some([]), ticks[1..], encode);
        Session(rest.history, [audio] + rest.sent, [Flatten(t.late)] + rest.dropped, rest.quit, rest.buffer)
  }

  /** Typing "quit" (in any case) ends the loop at once: no request, no
      history entry, whatever the buffer holds. */
  lemma QuitSendsNothing(history: seq<Message>, buffer: Option<seq<byte>>, ticks: seq<Tick>,
                         encode: seq<byte> -> string)
    requires |ticks| > 0 && Lower(ticks[0].input) == "quit"
    ensures RunCapture(history, buffer, ticks, encode).history == history
    ensures RunCapture(history, buffer, ticks, encode).sent == []
    ensures RunCapture(history, buffer, ticks, encode).quit
  {
  }

  /** A pass that sends appends the audio user message carrying the encoded
      buffer, then what the realtime reply records, and continues with an
      empty buffer; the payload sent is the buffer's contents, and what the
      callback wrote during the request is dropped. */
  lemma SendStep(history: seq<Message>, buffer: Option<seq<byte>>, ticks: seq<Tick>,
                 encode: seq<byte> -> string)
    requires |ticks| > 0 && Lower(ticks[0].input) != "quit"
    requires |Contents(Absorb(buffer, ticks[0].written))| > 0
    ensures var audio := Contents(Absorb(buffer, ticks[0].written));
            var grown := history + [UserMessage(encode(audio), "user", "audio")] + Recorded(RealtimeOutcome(ticks[0].reply));
            var rest := RunCapture(grown, Some([]), ticks[1..], encode);
            RunCapture(history, buffer, ticks, encode) ==
              Session(rest.history, [audio] + rest.sent, [Flatten(ticks[0].late)] + rest.dropped, rest.quit, rest.buffer)
  {
  }

  /** A pass with no captured audio ("No audio captured.") changes neither
      the history nor what is sent, and keeps every block written. */
  lemma IdleStep(history: seq<Message>, buffer: Option<seq<byte>>, ticks: seq<Tick>,
                 encode: seq<byte> -> string)
    requires |ticks| > 0 && Lower(ticks[0].input) != "quit"
    requires |Contents(Absorb(buffer, ticks[0].written))| == 0
    ensures RunCapture(history, buffer, ticks, encode) ==
            RunCapture(history, Absorb(Absorb(buffer, ticks[0].written), ticks[0].late), ticks[1..], encode)
  {
  }

  /** The loop ends on "quit" exactly when some command is a case variant of
      "quit"; otherwise it ends at the end of input. */
  lemma {:induction false} QuitIffQuitCommand(history: seq<Message>, buffer: Option<seq<byte>>, ticks: seq<Tick>,
                                              encode: seq<byte> -> string)
    ensures RunCapture(history, buffer, ticks, encode).quit <==>
            exists k :: 0 <= k < |ticks| && Lower(ticks[k].input) == "quit"
    decreases |ticks|
  {
    if |ticks| > 0 {
      var t := ticks[0];
      var buf := Absorb(buffer, t.written);
      var d := Decide(t.input, buf);
      if d != Quit {
        var h' := if d.Send? then SendMessage(history, encode(d.audio), "user", "audio", HttpFailure, t.reply, _ => Malformed).history
                  else history;
        var b' := if d.Send? then Some([]) else Absorb(buf, t.late);
        assert RunCapture(history, buffer, ticks, encode).quit == RunCapture(h', b', ticks[1..], encode).quit;
        QuitIffQuitCommand(h', b', ticks[1..], encode);
        if exists k :: 0 <= k < |ticks[1..]| && Lower(ticks[1..][k].input) == "quit" {
          var k :| 0 <= k < |ticks[1..]| && Lower(ticks[1..][k].input) == "quit";
          assert ticks[k + 1] == ticks[1..][k];
        }
        if exists k :: 0 <= k < |ticks| && Lower(ticks[k].input) == "quit" {
          var k :| 0 <= k < |ticks| && Lower(ticks[k].input) == "quit";
          assert k != 0 && ticks[1..][k - 1] == ticks[k];
        }
      }
    }
  }

  /** Commands after a "quit" have no effect: the loop over the whole run is
      the loop over the run cut just after that command. */
  lemma {:induction false} QuitIgnoresLater(history: seq<Message>, buffer: Option<seq<byte>>, ticks: seq<Tick>,
                                            k: nat, encode: seq<byte> -> string)
    requires k < |ticks| && Lower(ticks[k].input) == "quit"
    ensures RunCapture(history, buffer, ticks, encode) == RunCapture(history, buffer, ticks[..k + 1], encode)
    decreases k
  {
    var cut := ticks[..k + 1];
    assert cut[0] == ticks[0];
    var t := ticks[0];
    var buf := Absorb(buffer, t.written);
    var d := Decide(t.input, buf);
    if d != Quit {
      assert k > 0;
      assert cut[1..] == ticks[1..][..k];
      var h' := if d.Send? then SendMessage(history, encode(d.audio), "user", "audio", HttpFailure, t.reply, _ => Malformed).history
                else history;
      var b' := if d.Send? then Some([]) else Absorb(buf, t.late);
      assert ticks[1..][k - 1] == ticks[k];
      QuitIgnoresLater(h', b', ticks[1..], k - 1, encode);
    }
  }

  /** Every byte the callback writes while the loop runs, in order: each
      pass's blocks, up to and including the pass that reads "quit". */
  function AllWritten(ticks: seq<Tick>): seq<byte>
    decreases |ticks|
  {
    if |ticks| == 0 then []
    else
      var t := ticks[0];
      Flatten(t.written) + Flatten(t.late) + (if Lower(t.input) == "quit" then [] else AllWritten(ticks[1..]))
  }

  /** The payloads sent, each followed by what was dropped from its buffer
      during its request: the order in which those bytes were written. */
  function Interleave(sent: seq<seq<byte>>, dropped: seq<seq<byte>>): seq<byte>
    requires |sent| == |dropped|
    decreases |sent|
  {
    if |sent| == 0 then [] else sent[0] + dropped[0] + Interleave(sent[1..], dropped[1..])
  }

  /** Every byte the callback writes is accounted for exactly once, in the
      order written: each payload sent followed by what its request's
      buffer lost, and then what is left in the buffer, are exactly the
      initial buffer followed by everything written until the loop ends. */
  lemma {:induction false} AudioConserved(history: seq<Message>, buffer: Option<seq<byte>>, ticks: seq<Tick>,
                                          encode: seq<byte> -> string)
    ensures var s := RunCapture(history, buffer, ticks, encode);
            Interleave(s.sent, s.dropped) + Contents(s.buffer) == Contents(buffer) + AllWritten(ticks)
    decreases |ticks|
  {
    var s := RunCapture(history, buffer, ticks, encode);
    if |ticks| > 0 {
      var t := ticks[0];
      var buf := Absorb(buffer, t.written);
      var w, l := Flatten(t.written), Flatten(t.late);
      assert Contents(buf) == Contents(buffer) + w;
      var d := Decide(t.input, buf);
      if d == Quit {
        assert s.sent == [] && s.dropped == [] && s.buffer == Absorb(buf, t.late);
        assert AllWritten(ticks) == w + l + [];
        calc {
          Interleave(s.sent, s.dropped) + Contents(s.buffer);
          (Contents(buffer) + w) + l;
          { ConcatAssoc(Contents(buffer), w, l); }
          Contents(buffer) + (w + l);
          Contents(buffer) + AllWritten(ticks);
        }
      } else if d.NoAudio? {
        var after := Absorb(buf, t.late);
        var rest := AllWritten(ticks[1..]);
        assert s == RunCapture(history, after, ticks[1..], encode);
        assert AllWritten(ticks) == w + l + rest;
        AudioConserved(history, after, ticks[1..], encode);
        calc {
          Interleave(s.sent, s.dropped) + Contents(s.buffer);
          Contents(after) + rest;
          ((Contents(buffer) + w) + l) + rest;
          { ConcatAssoc(Contents(buffer), w, l); }
          (Contents(buffer) + (w + l)) + rest;
          { ConcatAssoc(Contents(buffer), w + l, rest); }
          Contents(buffer) + AllWritten(ticks);
        }
      } else {
        var x := SendMessage(history, encode(d.audio), "user", "audio", HttpFailure, t.reply, _ => Malformed);
        var r := RunCapture(x.history, Some([]), ticks[1..], encode);
        var rest := AllWritten(ticks[1..]);
        assert s.sent == [d.audio] + r.sent && s.dropped == [l] + r.dropped && s.buffer == r.buffer;
        assert AllWritten(ticks) == w + l + rest;
        AudioConserved(x.history, Some([]), ticks[1..], encode);
        assert Interleave(r.sent, r.dropped) + Contents(r.buffer) == rest;
        assert ([d.audio] + r.sent)[1..] == r.sent && ([l] + r.dropped)[1..] == r.dropped;
        assert Interleave(s.sent, s.dropped) == d.audio + l + Interleave(r.sent, r.dropped);
        assert d.audio == Contents(buffer) + w;
        calc {
          Interleave(s.sent, s.dropped) + Contents(s.buffer);
          (d.audio + l + Interleave(r.sent, r.dropped)) + Contents(r.buffer);
          { ConcatAssoc(d.audio + l, Interleave(r.sent, r.dropped), Contents(r.buffer)); }
          (d.audio + l) + rest;
          ((Contents(buffer) + w) + l) + rest;
          { ConcatAssoc(Contents(buffer), w, l); }
          (Contents(buffer) + (w + l)) + rest;
          { ConcatAssoc(Contents(buffer), w + l, rest); }
          Contents(buffer) + AllWritten(ticks);
        }
      }
    }
  }
}

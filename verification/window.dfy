/** The bounded sample window of the live chart (`LiveChart` in src/App.jsx):
    each well-formed stream message contributes one `{t, c}` sample, appended
    after the previous window is cut down to its last 120 samples. */
module SampleWindow {
  import opened Common

  /** A numeric field of a bar as it arrives: a number, or absent (JavaScript
      `undefined`, which the handler stores without complaint). */
  datatype Field = Num(v: real) | Absent

  /** One point of the trace: timestamp `t` and value `c`. */
  datatype Sample = Sample(t: Field, c: Field)

  /** Samples in arrival order, oldest first. */
  type Window = seq<Sample>

  /** How many previous samples survive an append (`prev.slice(-120)`). */
  const Keep: nat := 120

  /** The most samples a window can hold. */
  const Cap: nat := Keep + 1

  /** One inbound stream message, classified by how far the handler gets
      through it. */
  datatype Message =
    | Unparseable          // the data is not JSON, or is the document `null`
    | NoPayload            // a document whose `payload` is missing or null
    | NoBar                // a payload whose `bar` is missing or null
    | BarMsg(t: Field, c: Field)

  /** The sample a message carries, if it carries one. */
  function SampleOf(m: Message): Option<Sample> {
    match m
    case BarMsg(t, c) => Some(Sample(t, c))
    case _ => None
  }

  /** The window after one new sample arrives. */
  function Append(w: Window, s: Sample): (r: Window)
    ensures |r| == MinNat(|w|, Keep) + 1 <= Cap
    ensures r[|r| - 1] == s
    ensures r[..|r| - 1] == w[|w| - (|r| - 1)..]
  {
    LastN(w, Keep) + [s]
  }

  /** Appending after cutting to 120 is "append, then keep the most recent
      121": the single oldest sample is evicted once the cap is exceeded. */
  lemma AppendIsTrimToCap(w: Window, s: Sample)
    ensures Append(w, s) == LastN(w + [s], Cap)
  {
    LastNSnoc(w, s, Keep);
  }

  /** Up to 120 samples nothing is evicted; at capacity exactly the oldest is. */
  lemma AppendEvictsOnlyOldest(w: Window, s: Sample)
    ensures |w| <= Keep ==> Append(w, s) == w + [s]
    ensures |w| == Cap ==> Append(w, s) == w[1..] + [s]
  {
  }

  /** The message handler with the malformed cases dropped: the window only
      changes for a message that carries a bar. */
  function OnMessage(w: Window, m: Message): (r: Window)
    ensures !m.BarMsg? ==> r == w
    ensures m.BarMsg? ==> |r| == MinNat(|w|, Keep) + 1 && r[|r| - 1] == Sample(m.t, m.c)
    ensures m.BarMsg? ==> r[..|r| - 1] == w[|w| - (|r| - 1)..]
  {
    match SampleOf(m)
    case Some(s) => Append(w, s)
    case None => w
  }

  /** The window after the messages `msgs`, starting from the empty window. */
  function WindowAfter(msgs: seq<Message>): Window {
    Fold(OnMessage, [], msgs)
  }

  /** The samples the messages carry, in arrival order; malformed messages
      contribute nothing. */
  function Samples(msgs: seq<Message>): (r: seq<Sample>)
    decreases |msgs|
  {
    if |msgs| == 0 then []
    else
      var last := msgs[|msgs| - 1];
      Samples(msgs[..|msgs| - 1]) + (if last.BarMsg? then [Sample(last.t, last.c)] else [])
  }

  /** The window always holds exactly the most recent (at most 121) samples
      the stream has delivered, in arrival order. */
  lemma {:induction false} WindowHoldsLatestSamples(msgs: seq<Message>)
    ensures WindowAfter(msgs) == LastN(Samples(msgs), Cap)
    decreases |msgs|
  {
    if |msgs| > 0 {
      var init, m := msgs[..|msgs| - 1], msgs[|msgs| - 1];
      assert msgs == init + [m];
      var ss := Samples(init);
      var before := WindowAfter(init);
      assert WindowAfter(msgs) == OnMessage(before, m) by {
        FoldSnoc(OnMessage, [], init, m);
      }
      assert before == LastN(ss, Cap) by {
        WindowHoldsLatestSamples(init);
      }
      if m.BarMsg? {
        var s := Sample(m.t, m.c);
        assert Samples(msgs) == ss + [s];
        calc {
          OnMessage(before, m);
          Append(before, s);
          LastN(LastN(ss, Cap), Keep) + [s];
          { LastNOfLastN(ss, Cap, Keep); }
          LastN(ss, Keep) + [s];
        }
        LastNSnoc(ss, s, Keep);
      } else {
        assert Samples(msgs) == ss;
      }
    }
  }

  /** Every well-formed message contributes exactly one sample. */
  lemma {:induction false} SamplesOfWellFormed(msgs: seq<Message>)
    requires forall i :: 0 <= i < |msgs| ==> msgs[i].BarMsg?
    ensures |Samples(msgs)| == |msgs|
    ensures forall i :: 0 <= i < |msgs| ==> Samples(msgs)[i] == Sample(msgs[i].t, msgs[i].c)
    decreases |msgs|
  {
    if |msgs| > 0 {
      SamplesOfWellFormed(msgs[..|msgs| - 1]);
    }
  }

  /** Up to 121 well-formed messages, the window holds one sample per message;
      beyond that it holds exactly the 121 most recent. */
  lemma WellFormedStreamWindow(msgs: seq<Message>)
    requires forall i :: 0 <= i < |msgs| ==> msgs[i].BarMsg?
    ensures |WindowAfter(msgs)| == MinNat(|msgs|, Cap)
    ensures forall i :: 0 <= i < |WindowAfter(msgs)| ==>
      var j := |msgs| - |WindowAfter(msgs)| + i;
      WindowAfter(msgs)[i] == Sample(msgs[j].t, msgs[j].c)
  {
    WindowHoldsLatestSamples(msgs);
    SamplesOfWellFormed(msgs);
  }

  /** A malformed message injected anywhere into a stream changes nothing
      about the window that stream produces. */
  lemma MalformedMessageIsInvisible(pre: seq<Message>, m: Message, post: seq<Message>)
    requires !m.BarMsg?
    ensures WindowAfter(pre + [m] + post) == WindowAfter(pre + post)
  {
    FoldAppend(OnMessage, [], pre + [m], post);
    FoldAppend(OnMessage, [], pre, post);
    FoldSnoc(OnMessage, [], pre, m);
  }

  /** What happens to a message as the handler is written: parsing and the
      destructuring of `payload` sit inside the `try`, but `payload.bar.t`
      is read inside the state updater, which React runs while rendering,
      outside that `try`. */
  datatype Delivery = Applied(window: Window) | ThrowsInRender

  function OnMessageAsWritten(w: Window, m: Message): (r: Delivery)
    ensures r.ThrowsInRender? <==> m.NoPayload? || m.NoBar?
    ensures r.Applied? ==> r.window == OnMessage(w, m)
  {
    match m
    case Unparseable => Applied(w)
    case NoPayload => ThrowsInRender
    case NoBar => ThrowsInRender
    case BarMsg(t, c) => Applied(Append(w, Sample(t, c)))
  }

  /** A message `{"payload": {}}` is not silently dropped as written: its
      update throws, whereas the intended handler leaves the window as it was. */
  lemma PayloadWithoutBarThrows(w: Window)
    ensures OnMessageAsWritten(w, NoBar) == ThrowsInRender
    ensures OnMessage(w, NoBar) == w
  {
  }
}

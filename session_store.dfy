/** The conversation history kept in the session, and how one user turn changes it: the
    user's message and the assistant's whole reply are recorded together after the reply
    has been streamed, or nothing is recorded at all. */
module SessionStore {
  import opened ChatTypes
  import opened RequestComposer
  import opened Streaming

  /** The messages one turn adds to the history. Nothing is added when no text was
      submitted, or when generation or streaming raised; otherwise the user's text and the
      full reply are added, in that order. A turn never leaves a lone user message. */
  function TurnRecord(userInput: string, outcome: StreamOutcome): (rec: seq<ChatMessage>)
    ensures |rec| == 0 || |rec| == 2
    ensures rec != [] <==> userInput != "" && outcome.Completed()
    ensures rec != [] ==> rec[0] == ChatMessage(User, userInput)
    ensures rec != [] ==> rec[1] == ChatMessage(Assistant, Concat(outcome.chunks))
  {
    if userInput != "" && outcome.Completed() then
      [ChatMessage(User, userInput), ChatMessage(Assistant, Concat(outcome.chunks))]
    else
      []
  }

  /** One submission as the session sees it: the text and how the backend answered. */
  datatype Turn = Turn(userInput: string, outcome: StreamOutcome)

  /** The history after handling the turns one after another, starting from h. */
  function Replay(h: seq<ChatMessage>, turns: seq<Turn>): seq<ChatMessage>
    decreases |turns|
  {
    if turns == [] then h
    else Replay(h + TurnRecord(turns[0].userInput, turns[0].outcome), turns[1..])
  }

  /** Everything the turns record, in order. */
  function Transcript(turns: seq<Turn>): seq<ChatMessage> {
    if turns == [] then []
    else TurnRecord(turns[0].userInput, turns[0].outcome) + Transcript(turns[1..])
  }

  /** Successive turns only ever add to the end: the history before them is kept intact
      as a prefix, followed by what each turn recorded, in turn order. */
  lemma {:induction false} ReplayAppendsTranscript(h: seq<ChatMessage>, turns: seq<Turn>)
    ensures Replay(h, turns) == h + Transcript(turns)
    decreases |turns|
  {
    if turns != [] {
      var rec := TurnRecord(turns[0].userInput, turns[0].outcome);
      ReplayAppendsTranscript(h + rec, turns[1..]);
      assert (h + rec) + Transcript(turns[1..]) == h + (rec + Transcript(turns[1..]));
    }
  }

  /** Every turn submitted text and was streamed to its end. */
  predicate AllCompleted(turns: seq<Turn>) {
    forall i :: 0 <= i < |turns| ==> turns[i].userInput != "" && turns[i].outcome.Completed()
  }

  /** When every turn succeeds, n turns record 2n messages in strict chronological order:
      user 1, assistant 1, user 2, assistant 2, and so on. */
  lemma {:induction false} CompletedTurnsInterleave(turns: seq<Turn>, i: nat)
    requires AllCompleted(turns)
    requires i < |turns|
    ensures |Transcript(turns)| == 2 * |turns|
    ensures Transcript(turns)[2 * i] == ChatMessage(User, turns[i].userInput)
    ensures Transcript(turns)[2 * i + 1] == ChatMessage(Assistant, Concat(turns[i].outcome.chunks))
  {
    var rec := TurnRecord(turns[0].userInput, turns[0].outcome);
    assert |rec| == 2;
    if |turns| == 1 {
      assert turns[1..] == [];
    } else {
      assert AllCompleted(turns[1..]) by {
        forall j | 0 <= j < |turns[1..]|
          ensures turns[1..][j].userInput != "" && turns[1..][j].outcome.Completed()
        {
          assert turns[1..][j] == turns[j + 1];
        }
      }
      CompletedTurnsInterleave(turns[1..], if i == 0 then 0 else i - 1);
    }
  }

  /** A failed turn, wherever it falls among other turns, changes nothing: the history is
      the same as if it had never been submitted. */
  lemma FailedTurnLeavesNoTrace(h: seq<ChatMessage>, before: seq<Turn>, failed: Turn, after: seq<Turn>)
    requires !failed.outcome.Completed()
    ensures Replay(h, before + [failed] + after) == Replay(h, before + after)
  {
    var withFailed := before + [failed];
    assert Transcript([failed]) == [] by {
      assert [failed][1..] == [];
    }
    TranscriptSplit(before, [failed]);
    assert Transcript(withFailed) == Transcript(before);
    TranscriptSplit(withFailed, after);
    TranscriptSplit(before, after);
    assert Transcript(withFailed + after) == Transcript(before + after);
    ReplayAppendsTranscript(h, withFailed + after);
    ReplayAppendsTranscript(h, before + after);
  }

  /** What a sequence of turns records is what its two parts record, one after the other. */
  lemma {:induction false} TranscriptSplit(a: seq<Turn>, b: seq<Turn>)
    ensures Transcript(a + b) == Transcript(a) + Transcript(b)
  {
    if a != [] {
      assert (a + b)[1..] == a[1..] + b;
      TranscriptSplit(a[1..], b);
    } else {
      assert a + b == b;
    }
  }

  /** The per-browser-session state; `messages` is its "messages" entry, None until the
      entry has been created. */
  class SessionState {
    var messages: Option<seq<ChatMessage>>

    /** A new session holds no history entry yet. */
    constructor ()
      ensures messages == None
    {
      messages := None;
    }

    /** Creates an empty history when the session has none; an existing history is kept
        exactly as it is. */
    method InitHistory()
      modifies this
      ensures messages == if old(messages).None? then Some([]) else old(messages)
    {
      if messages.None? {
        messages := Some([]);
      }
    }

    /** Appends one message; the old history stays a prefix of the new one. */
    method AddMessage(role: Role, content: string)
      requires messages.Some?
      modifies this
      ensures messages.Some? && messages.value == old(messages.value) + [ChatMessage(role, content)]
    {
      messages := Some(messages.value + [ChatMessage(role, content)]);
    }

    /** Replaces the history by an empty one, whatever it held. */
    method ClearHistory()
      modifies this
      ensures messages == Some([])
    {
      messages := Some([]);
    }

    /** Handles one submission. Nothing happens for empty input. Otherwise the request is
        composed from the settings and the text alone, the backend answers it, the reply
        is streamed, and only then are the user's text and the reply recorded; when
        generation or streaming raises, the error is caught and the history is untouched.
        Returns the request composed for the backend, if any. */
    method HandleTurn(userInput: string, systemPrompt: string, responseLength: string,
                      backend: Request -> StreamOutcome)
      returns (request: Option<Request>)
      requires messages.Some?
      modifies this
      ensures request == if userInput == "" then None
                         else Some(ComposeRequest(systemPrompt, userInput, responseLength))
      ensures messages.Some?
      ensures messages.value == old(messages.value)
        + TurnRecord(userInput, backend(ComposeRequest(systemPrompt, userInput, responseLength)))
    {
      request := None;
      if userInput != "" {
        var req := ComposeRequest(systemPrompt, userInput, responseLength);
        request := Some(req);
        var outcome := backend(req);
        if outcome.Streamed? {
          var answer := WriteStream(outcome.chunks, outcome.interrupted);
          if answer.Some? {
            AddMessage(User, userInput);
            AddMessage(Assistant, answer.value);
          }
        }
      }
    }

    /** One run of the page: make sure a history exists; if the clear button was pressed,
        empty the history and start over (the fresh run sees neither the click nor any
        input); otherwise handle the submitted text, if any. */
    method Run(clearClicked: bool, userInput: string, systemPrompt: string,
               responseLength: string, backend: Request -> StreamOutcome)
      returns (request: Option<Request>)
      modifies this
      ensures clearClicked ==> messages == Some([]) && request == None
      ensures !clearClicked ==>
        request == (if userInput == "" then None
                    else Some(ComposeRequest(systemPrompt, userInput, responseLength)))
      ensures !clearClicked ==>
        messages == Some((if old(messages).None? then [] else old(messages).value)
          + TurnRecord(userInput, backend(ComposeRequest(systemPrompt, userInput, responseLength))))
    {
      InitHistory();
      if clearClicked {
        ClearHistory();
        request := None;
        return;
      }
      request := HandleTurn(userInput, systemPrompt, responseLength, backend);
    }
  }
}

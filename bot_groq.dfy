/**
  The assistant bridge of backend/bot_groq.py: the per-user context window
  (`user_context`), the prompt built from it, and the way every outcome of the
  chat-completion call becomes a reply string. The HTTPS call itself is a
  function from the prompt to an abstract `Outcome`.
 */
module BotGroq {
  import opened Options

  /** `user_context` keeps the last 10 strings per user. */
  const WindowSize: nat := 10

  /** The reply when the completion carries no `choices[0].message.content`. */
  const NotUnderstood: string := "Sorry, I couldn't understand that."

  /** `str(IndexError)` for `[][0]`: an empty `choices` list falls through to the generic handler. */
  const IndexErrorText: string := "list index out of range"

  // ---------------------------------------------------------------- the window

  /** The window after `add_context(user, m)`: append, then drop the oldest entry when over the bound. */
  function Slide(w: seq<string>, m: string): (r: seq<string>)
    ensures |w| < WindowSize ==> r == w + [m]
    ensures |w| >= WindowSize ==> r == w[1..] + [m]
    ensures |w| <= WindowSize ==> |r| <= WindowSize
    ensures |r| > 0 && r[|r| - 1] == m
  {
    var grown := w + [m];
    if |grown| > WindowSize then grown[1..] else grown
  }

  /** The last `n` entries of `s` (all of `s` when it is shorter). */
  function LastN(s: seq<string>, n: nat): (r: seq<string>)
    ensures |r| == if |s| <= n then |s| else n
    ensures r == s[|s| - |r|..]
  {
    if |s| <= n then s else s[|s| - n..]
  }

  /** Sliding in a reply after its message leaves the two as the window's last entries. */
  lemma SlideEndsWithPair(w: seq<string>, message: string, reply: string)
    requires |w| > 0 && w[|w| - 1] == message
    ensures var r := Slide(w, reply); |r| >= 2 && r[|r| - 2..] == [message, reply]
  {
  }

  /** The window after adding each of `ms` in turn. */
  function SlideAll(w: seq<string>, ms: seq<string>): seq<string>
    decreases |ms|
  {
    if ms == [] then w else SlideAll(Slide(w, ms[0]), ms[1..])
  }

  /** One slide of a window that holds the last entries of a history holds the last entries of the longer history. */
  lemma SlideKeepsLast(s: seq<string>, m: string)
    ensures Slide(LastN(s, WindowSize), m) == LastN(s + [m], WindowSize)
  {
    if |s| >= WindowSize {
      assert (s + [m])[|s| + 1 - WindowSize..] == s[|s| - WindowSize..][1..] + [m];
    }
  }

  /** The window always holds the last (at most) 10 strings ever added, in the order they were added. */
  lemma {:induction false} SlideAllKeepsLast(s: seq<string>, ms: seq<string>)
    ensures SlideAll(LastN(s, WindowSize), ms) == LastN(s + ms, WindowSize)
    decreases |ms|
  {
    if ms != [] {
      SlideKeepsLast(s, ms[0]);
      SlideAllKeepsLast(s + [ms[0]], ms[1..]);
      assert s + [ms[0]] + ms[1..] == s + ms;
    }
  }

  /** From an empty window, eleven additions drop the first string and keep the other ten in order. */
  lemma EleventhEvictsFirst(ms: seq<string>)
    requires |ms| == WindowSize + 1
    ensures SlideAll([], ms) == ms[1..]
  {
    var empty: seq<string> := [];
    assert LastN(empty, WindowSize) == empty;
    SlideAllKeepsLast(empty, ms);
    assert empty + ms == ms;
    assert LastN(ms, WindowSize) == ms[1..];
  }

  class ContextCache {
    /** `user_context`: email to that user's window. */
    var windows: map<string, seq<string>>

    ghost predicate Valid()
      reads this
    {
      forall u :: u in windows ==> |windows[u]| <= WindowSize
    }

    constructor ()
      ensures windows == map[] && Valid()
    {
      windows := map[];
    }

    /** `get_context`: the stored window, or [] for a user with none. */
    function GetContext(user: string): (r: seq<string>)
      reads this
      ensures user in windows ==> r == windows[user]
      ensures user !in windows ==> r == []
      ensures Valid() ==> |r| <= WindowSize
    {
      if user in windows then windows[user] else []
    }

    /** `add_context`: slides the user's window and touches no other user's. */
    method AddContext(user: string, m: string)
      requires Valid()
      modifies this
      ensures Valid()
      ensures windows == old(windows)[user := Slide(old(GetContext(user)), m)]
      ensures forall u :: u != user ==> (u in windows <==> u in old(windows))
      ensures forall u :: u != user && u in windows ==> windows[u] == old(windows)[u]
    {
      var lst := GetContext(user);
      lst := lst + [m];
      if |lst| > WindowSize {
        lst := lst[1..];
      }
      windows := windows[user := lst];
    }
  }

  // ---------------------------------------------------------------- the prompt

  function RoleLabel(isUser: bool): string
  {
    if isUser then "User: " else "Bot: "
  }

  function Join(parts: seq<string>, sep: string): string
  {
    if |parts| == 0 then ""
    else if |parts| == 1 then parts[0]
    else Join(parts[..|parts| - 1], sep) + sep + parts[|parts| - 1]
  }

  /** The context lines, newline-joined, then the new message and the cue for the reply. */
  function Transcript(lines: seq<string>, message: string): string
  {
    if |lines| > 0 then Join(lines, "\n") + "\nUser: " + message + "\nBot:"
    else "User: " + message + "\nBot:"
  }

  /** The labels as the source writes them: entry i is a user line exactly when i is even. */
  function ParityLines(ctx: seq<string>): (r: seq<string>)
    ensures |r| == |ctx|
  {
    seq(|ctx|, i requires 0 <= i < |ctx| => RoleLabel(i % 2 == 0) + ctx[i])
  }

  /** The prompt as the source builds it. */
  function PromptAsWritten(ctx: seq<string>, message: string): string
  {
    Transcript(ParityLines(ctx), message)
  }

  /**
    The labels counted from the end of the window: the last entry, the message
    just added, is a user line, and roles alternate backwards from it.
   */
  function RoleLines(ctx: seq<string>): (r: seq<string>)
    ensures |r| == |ctx|
  {
    seq(|ctx|, i requires 0 <= i < |ctx| => RoleLabel((|ctx| - 1 - i) % 2 == 0) + ctx[i])
  }

  /** The corrected prompt: every entry labelled by the role of its author. */
  function Prompt(ctx: seq<string>, message: string): string
  {
    Transcript(RoleLines(ctx), message)
  }

  lemma {:induction false} JoinStartsWithFirst(parts: seq<string>, sep: string)
    requires |parts| > 0
    ensures parts[0] <= Join(parts, sep)
  {
    if |parts| > 1 {
      JoinStartsWithFirst(parts[..|parts| - 1], sep);
    }
  }

  /** A transcript over some lines is those lines joined, then the closing "\nUser: " + message + "\nBot:". */
  lemma TranscriptShape(lines: seq<string>, message: string)
    requires |lines| > 0
    ensures var t, tail := Transcript(lines, message), "\nUser: " + message + "\nBot:";
            |tail| <= |t| && t[..|t| - |tail|] == Join(lines, "\n") && t[|t| - |tail|..] == tail
    ensures lines[0] <= Transcript(lines, message)
  {
    JoinStartsWithFirst(lines, "\n");
    var head, tail := Join(lines, "\n"), "\nUser: " + message + "\nBot:";
    assert Transcript(lines, message) == head + tail;
  }

  /**
    A prompt over a non-empty window, as the code builds it or labelled by
    role, opens with the oldest entry under its label and closes with the
    message under "User: " and the "Bot:" cue.
   */
  lemma PromptShape(ctx: seq<string>, message: string)
    requires |ctx| > 0
    ensures var p, tail := PromptAsWritten(ctx, message), "\nUser: " + message + "\nBot:";
            "User: " + ctx[0] <= p && |tail| <= |p| &&
            p[..|p| - |tail|] == Join(ParityLines(ctx), "\n") && p[|p| - |tail|..] == tail
    ensures var p, tail := Prompt(ctx, message), "\nUser: " + message + "\nBot:";
            RoleLabel((|ctx| - 1) % 2 == 0) + ctx[0] <= p && |tail| <= |p| &&
            p[..|p| - |tail|] == Join(RoleLines(ctx), "\n") && p[|p| - |tail|..] == tail
  {
    TranscriptShape(ParityLines(ctx), message);
    TranscriptShape(RoleLines(ctx), message);
  }

  /** Role of position `p` of a user's history: the bridge adds a message then its reply, so even positions are user lines. */
  predicate IsUserTurn(p: nat)
  {
    p % 2 == 0
  }

  /**
    As written: once more than 10 strings have gone through the window, the
    window seen while the prompt is built starts one past an even position,
    and the parity label of EVERY entry is the opposite of its author's role.
   */
  lemma ParityLabelsSwapWhenFull(h: seq<string>)
    requires |h| % 2 == 1 && |h| > WindowSize
    ensures var w := LastN(h, WindowSize);
            forall j | 0 <= j < |w| ::
              ParityLines(w)[j] == RoleLabel(!IsUserTurn(|h| - |w| + j)) + h[|h| - |w| + j]
  {
  }

  /** Before the window fills, the parity labels are the right ones. */
  lemma ParityLabelsRightUntilFull(h: seq<string>)
    requires |h| % 2 == 1 && |h| <= WindowSize
    ensures var w := LastN(h, WindowSize);
            forall j | 0 <= j < |w| :: ParityLines(w)[j] == RoleLabel(IsUserTurn(j)) + h[j]
  {
  }

  /** A full window's oldest entry is a user line by parity and a bot line counted from the end. */
  lemma FullWindowFirstLabels(w: seq<string>)
    requires |w| == WindowSize
    ensures ParityLines(w)[0] == "User: " + w[0] && RoleLines(w)[0] == "Bot: " + w[0]
  {
  }

  /** The eleventh string added (the sixth request) is the first to get swapped labels. */
  lemma SixthRequestMislabelled()
    ensures var h := ["q1", "a1", "q2", "a2", "q3", "a3", "q4", "a4", "q5", "a5", "q6"];
            SlideAll([], h) == h[1..] && h[1] == "a1" &&
            ParityLines(h[1..])[0] == "User: a1" && RoleLines(h[1..])[0] == "Bot: a1"
  {
    var h := ["q1", "a1", "q2", "a2", "q3", "a3", "q4", "a4", "q5", "a5", "q6"];
    EleventhEvictsFirst(h);
    FullWindowFirstLabels(h[1..]);
  }

  /** Two naturals one short of an odd sum are both even or both odd. */
  lemma SameParity(a: nat, b: nat, n: nat)
    requires a + b + 1 == n && n % 2 == 1
    ensures (a % 2 == 0) == (b % 2 == 0)
  {
  }

  /** Labelled from the end, one entry of a suffix of an odd-length history carries its author's role. */
  lemma RoleLabelMatchesTurn(h: seq<string>, w: seq<string>, j: nat)
    requires |h| % 2 == 1 && |w| <= |h| && w == h[|h| - |w|..] && j < |w|
    ensures RoleLines(w)[j] == RoleLabel(IsUserTurn(|h| - |w| + j)) + h[|h| - |w| + j]
  {
    var p: nat := |h| - |w| + j;
    SameParity(|w| - 1 - j, p, |h|);
    var byEnd, byTurn := (|w| - 1 - j) % 2 == 0, IsUserTurn(p);
    assert byEnd == byTurn;
    assert w[j] == h[p];
    assert RoleLines(w)[j] == RoleLabel(byEnd) + w[j];
  }

  /** Labelled from the end, every entry of the window carries its author's role, full or not. */
  lemma RoleLabelsMatchTurns(h: seq<string>)
    requires |h| % 2 == 1
    ensures var w := LastN(h, WindowSize);
            forall j | 0 <= j < |w| ::
              RoleLines(w)[j] == RoleLabel(IsUserTurn(|h| - |w| + j)) + h[|h| - |w| + j]
  {
    forall j | 0 <= j < |LastN(h, WindowSize)|
      ensures var w := LastN(h, WindowSize);
              RoleLines(w)[j] == RoleLabel(IsUserTurn(|h| - |w| + j)) + h[|h| - |w| + j]
    {
      RoleLabelMatchesTurn(h, LastN(h, WindowSize), j);
    }
  }

  // ---------------------------------------------------------------- the reply

  /** `choices[0].message`: `content` is None when the key is absent. */
  datatype ChoiceMessage = ChoiceMessage(content: Option<string>)

  /** One element of `choices`: `message` is None when the key is absent. */
  datatype Choice = Choice(message: Option<ChoiceMessage>)

  /** The `error` object of an error body: `message` is None when the key is absent. */
  datatype ApiError = ApiError(message: Option<string>)

  /** The body of a non-success response: not JSON, or an object with an optional `error`. */
  datatype ErrorBody = Unreadable | ErrorObject(error: Option<ApiError>)

  /** Every way the completion call can end. */
  datatype Outcome =
    | Completed(choices: Option<seq<Choice>>)    // success status and a JSON object; None: no `choices` key
    | HttpFailure(text: string, body: ErrorBody)  // `raise_for_status` raised; `text` is `str(e)`
    | RequestFailure(text: string)                // any other `requests` exception (connection, timeout, bad JSON)
    | OtherFailure(text: string)                  // any other exception; `text` is `str(e)`

  /** The reply text in the first choice, if the success body carries one. */
  function FirstContent(choices: seq<Choice>): Option<string>
  {
    if |choices| > 0 && choices[0].message.Some? then choices[0].message.value.content else None
  }

  /** A reply that announces a failure of the call. */
  predicate IsErrorReply(r: string)
  {
    "API Error: " <= r || "HTTP Error: " <= r || "Request Error: " <= r || "Error: " <= r
  }

  /** The reply-selection chain of `generate_bot_reply`. */
  function ReplyFor(o: Outcome): (r: string)
    ensures !o.Completed? ==> IsErrorReply(r)
    ensures o.HttpFailure? && o.body.Unreadable? ==> r == "HTTP Error: " + o.text
    ensures o.HttpFailure? && o.body.ErrorObject? ==>
              r == "API Error: " + (if o.body.error.Some? && o.body.error.value.message.Some?
                                    then o.body.error.value.message.value else o.text)
    ensures o.RequestFailure? ==> r == "Request Error: " + o.text
    ensures o.OtherFailure? ==> r == "Error: " + o.text
    ensures o.Completed? && o.choices.Some? && FirstContent(o.choices.value).Some? ==>
              r == FirstContent(o.choices.value).value
    ensures o.Completed? && o.choices.Some? && |o.choices.value| == 0 ==> r == "Error: " + IndexErrorText
    ensures o.Completed? && (o.choices.None? || (|o.choices.value| > 0 && FirstContent(o.choices.value).None?)) ==>
              r == NotUnderstood
  {
    match o
    case Completed(None) => NotUnderstood
    case Completed(Some(choices)) =>
      if |choices| == 0 then "Error: " + IndexErrorText
      else FirstContent(choices).GetOr(NotUnderstood)
    case HttpFailure(text, Unreadable) => "HTTP Error: " + text
    case HttpFailure(text, ErrorObject(err)) =>
      "API Error: " + (if err.Some? && err.value.message.Some? then err.value.message.value else text)
    case RequestFailure(text) => "Request Error: " + text
    case OtherFailure(text) => "Error: " + text
  }

  /**
    `generate_bot_reply`: adds the message to the window, asks `complete` for
    a completion of the parity-labelled prompt built from the window, picks
    the reply, and
    adds the reply to the window.
   */
  method GenerateBotReply(cache: ContextCache, user: string, message: string, complete: string -> Outcome)
    returns (reply: string)
    requires cache.Valid()
    modifies cache
    ensures cache.Valid()
    ensures var sent := Slide(old(cache.GetContext(user)), message);
            reply == ReplyFor(complete(PromptAsWritten(sent, message))) &&
            cache.windows == old(cache.windows)[user := Slide(sent, reply)]
    ensures var w := cache.GetContext(user);
            |w| >= 2 && w[|w| - 2..] == [message, reply]
  {
    ghost var sent := Slide(old(cache.GetContext(user)), message);
    cache.AddContext(user, message);
    assert cache.windows == old(cache.windows)[user := sent];
    var context := cache.GetContext(user);
    assert context == sent && |context| > 0;  // so the prompt never takes its no-context branch
    var prompt := PromptAsWritten(context, message);
    reply := ReplyFor(complete(prompt));
    ghost var afterMessage := cache.windows;
    cache.AddContext(user, reply);
    assert cache.windows == afterMessage[user := Slide(sent, reply)];
    assert cache.GetContext(user) == Slide(sent, reply);
    SlideEndsWithPair(sent, message, reply);
  }
}

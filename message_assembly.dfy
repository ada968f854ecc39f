/**
 * The message list sent to the completion service: the system prompt, a window
 * of the caller's history, then the new query (app.py:174-187 for the Azure AI
 * Inference client, app.py:209-222 for the Azure OpenAI client).
 */
module MessageAssembly {
  import opened Wrappers
  import opened Text

  /** At most this many of the latest history entries are sent. */
  const HistoryLimit: nat := 10
  const PreviousResponsePrefix: string := "Previous response: "

  /** One history entry as the caller sent it: a JSON object whose `role` or `content` key may be missing. */
  datatype ChatEntry = ChatEntry(role: Option<string>, content: Option<string>)

  /** A message for the completion service. */
  datatype Message = Message(role: string, content: string)

  function SystemMessage(content: string): Message {
    Message("system", content)
  }

  function UserMessage(content: string): Message {
    Message("user", content)
  }

  /** The text of the `KeyError` Python raises for a missing key. */
  function KeyErrorText(key: string): string {
    "'" + key + "'"
  }

  /** Python's `h[-10:]`: the last min(10, |h|) entries, in order. */
  function Window(h: seq<ChatEntry>): (w: seq<ChatEntry>)
    ensures |w| == Min(|h|, HistoryLimit)
    ensures w == h[|h| - |w|..]
  {
    if |h| <= HistoryLimit then h else h[|h| - HistoryLimit..]
  }

  /** The entries considered: none for a missing (or empty) history, else the window. */
  function HistoryWindow(history: Option<seq<ChatEntry>>): seq<ChatEntry> {
    match history
    case None => []
    case Some(h) => Window(h)
  }

  /**
   * What one entry contributes, or the `KeyError` it raises. The OpenAI variant
   * copies role and content; the inference variant keeps a `user` entry as a user
   * message, turns an `assistant` entry into a system message and drops any
   * other role without reading its content.
   */
  function Turn(usingInference: bool, e: ChatEntry): Result<seq<Message>, string> {
    if e.role.None? then Failure(KeyErrorText("role"))
    else if !usingInference then
      if e.content.None? then Failure(KeyErrorText("content"))
      else Success([Message(e.role.value, e.content.value)])
    else if e.role.value == "user" then
      if e.content.None? then Failure(KeyErrorText("content"))
      else Success([UserMessage(e.content.value)])
    else if e.role.value == "assistant" then
      if e.content.None? then Failure(KeyErrorText("content"))
      else Success([SystemMessage(PreviousResponsePrefix + e.content.value)])
    else Success([])
  }

  /** The messages of `w[..n]`, in order, or the first `KeyError`. */
  function Collect(usingInference: bool, w: seq<ChatEntry>, n: nat): Result<seq<Message>, string>
    requires n <= |w|
    decreases n
  {
    if n == 0 then Success([])
    else match Collect(usingInference, w, n - 1)
      case Failure(err) => Failure(err)
      case Success(ms) =>
        match Turn(usingInference, w[n - 1])
        case Failure(err) => Failure(err)
        case Success(t) => Success(ms + t)
  }

  /** The complete request: system prompt, converted window, user query. */
  function Messages(usingInference: bool, systemPrompt: string, history: Option<seq<ChatEntry>>, userQuery: string)
    : Result<seq<Message>, string>
  {
    var w := HistoryWindow(history);
    match Collect(usingInference, w, |w|)
    case Failure(err) => Failure(err)
    case Success(turns) => Success([SystemMessage(systemPrompt)] + turns + [UserMessage(userQuery)])
  }

  /** The entries pass exactly when none of them raises. */
  lemma {:induction false} CollectSucceeds(v: bool, w: seq<ChatEntry>, n: nat)
    requires n <= |w|
    ensures Collect(v, w, n).Success? <==> forall i :: 0 <= i < n ==> Turn(v, w[i]).Success?
    decreases n
  {
    if n > 0 {
      CollectSucceeds(v, w, n - 1);
    }
  }

  /** A failure is the `KeyError` of the first entry that raises one. */
  lemma {:induction false} CollectFails(v: bool, w: seq<ChatEntry>, n: nat, err: string)
    requires n <= |w|
    ensures Collect(v, w, n) == Failure(err) <==>
      exists i :: 0 <= i < n && Turn(v, w[i]) == Failure(err) &&
        forall j :: 0 <= j < i ==> Turn(v, w[j]).Success?
    decreases n
  {
    if n > 0 {
      CollectFails(v, w, n - 1, err);
      CollectSucceeds(v, w, n - 1);
    }
  }

  /** The OpenAI variant copies every entry unchanged. */
  lemma {:induction false} OpenAICopiesEntries(w: seq<ChatEntry>, n: nat, ms: seq<Message>)
    requires n <= |w|
    requires Collect(false, w, n) == Success(ms)
    ensures |ms| == n
    ensures forall i :: 0 <= i < n ==>
      w[i].role.Some? && w[i].content.Some? && ms[i] == Message(w[i].role.value, w[i].content.value)
    decreases n
  {
    if n > 0 {
      var prev := Collect(false, w, n - 1).value;
      OpenAICopiesEntries(w, n - 1, prev);
      assert ms == prev + [Message(w[n - 1].role.value, w[n - 1].content.value)];
    }
  }

  /** The entries of `w[..n]` whose role is `user` or `assistant`, in order. */
  function Kept(w: seq<ChatEntry>, n: nat): (k: seq<ChatEntry>)
    requires n <= |w|
    ensures |k| <= n
    decreases n
  {
    if n == 0 then []
    else if w[n - 1].role == Some("user") || w[n - 1].role == Some("assistant") then Kept(w, n - 1) + [w[n - 1]]
    else Kept(w, n - 1)
  }

  /** How the inference variant renders a kept entry. */
  function InferenceMessage(role: string, content: string): Message {
    if role == "user" then UserMessage(content) else SystemMessage(PreviousResponsePrefix + content)
  }

  /** The inference variant keeps the user and assistant entries, in order, and renders each of them. */
  lemma {:induction false} InferenceMapsKept(w: seq<ChatEntry>, n: nat, ms: seq<Message>)
    requires n <= |w|
    requires Collect(true, w, n) == Success(ms)
    ensures |ms| == |Kept(w, n)|
    ensures forall k :: 0 <= k < |ms| ==>
      var e := Kept(w, n)[k];
      e.role.Some? && e.content.Some? && ms[k] == InferenceMessage(e.role.value, e.content.value)
    decreases n
  {
    if n > 0 {
      var prev := Collect(true, w, n - 1).value;
      InferenceMapsKept(w, n - 1, prev);
    }
  }

  /** For a history of user entries only, both variants send the same messages. */
  lemma {:induction false} VariantsAgreeOnUserEntries(w: seq<ChatEntry>, n: nat)
    requires n <= |w|
    requires forall i :: 0 <= i < n ==> w[i].role == Some("user")
    ensures Collect(true, w, n) == Collect(false, w, n)
    decreases n
  {
    if n > 0 {
      VariantsAgreeOnUserEntries(w, n - 1);
    }
  }

  /** Once the latest entries fill the window, earlier ones fall outside it. */
  lemma WindowOfLongSuffix(older: seq<ChatEntry>, recent: seq<ChatEntry>)
    requires |recent| >= HistoryLimit
    ensures Window(older + recent) == Window(recent)
  {
    var h := older + recent;
    assert h[|h| - HistoryLimit..] == recent[|recent| - HistoryLimit..];
  }

  /** Positions in a message list framed by a first and a last message. */
  lemma Framed(first: Message, ms: seq<Message>, last: Message)
    ensures var r := [first] + ms + [last];
      |r| == |ms| + 2 && r[0] == first && r[|ms| + 1] == last &&
      forall k :: 0 <= k < |ms| ==> r[k + 1] == ms[k]
  {
  }

  /** Entries older than the latest ten never affect the request, even ones that would raise. */
  lemma OlderEntriesIgnored(v: bool, systemPrompt: string, older: seq<ChatEntry>, recent: seq<ChatEntry>, userQuery: string)
    requires |recent| >= HistoryLimit
    ensures Messages(v, systemPrompt, Some(older + recent), userQuery) == Messages(v, systemPrompt, Some(recent), userQuery)
  {
    WindowOfLongSuffix(older, recent);
  }

  /**
   * OpenAI variant: with every windowed entry complete, the request is the system
   * prompt, each entry copied, then the query, min(10, n) + 2 messages in all;
   * otherwise it fails.
   */
  lemma OpenAIRequest(systemPrompt: string, history: Option<seq<ChatEntry>>, userQuery: string)
    ensures var w := HistoryWindow(history);
      var r := Messages(false, systemPrompt, history, userQuery);
      (r.Success? <==> forall i :: 0 <= i < |w| ==> w[i].role.Some? && w[i].content.Some?) &&
      (r.Success? ==>
        |r.value| == |w| + 2 &&
        r.value[0] == SystemMessage(systemPrompt) &&
        r.value[|w| + 1] == UserMessage(userQuery) &&
        forall i :: 0 <= i < |w| ==> r.value[i + 1] == Message(w[i].role.value, w[i].content.value))
  {
    var w := HistoryWindow(history);
    CollectSucceeds(false, w, |w|);
    var c := Collect(false, w, |w|);
    if c.Success? {
      OpenAICopiesEntries(w, |w|, c.value);
      Framed(SystemMessage(systemPrompt), c.value, UserMessage(userQuery));
    }
  }

  /**
   * Inference variant: a successful request is the system prompt, the rendered
   * user and assistant entries of the window in order, then the query, so it has
   * at most min(10, n) + 2 messages.
   */
  lemma InferenceRequest(systemPrompt: string, history: Option<seq<ChatEntry>>, userQuery: string)
    ensures var w := HistoryWindow(history);
      var r := Messages(true, systemPrompt, history, userQuery);
      r.Success? ==>
        var kept := Kept(w, |w|);
        |r.value| == |kept| + 2 && |r.value| <= |w| + 2 &&
        r.value[0] == SystemMessage(systemPrompt) &&
        r.value[|kept| + 1] == UserMessage(userQuery) &&
        forall k :: 0 <= k < |kept| ==>
          kept[k].role.Some? && kept[k].content.Some? &&
          r.value[k + 1] == InferenceMessage(kept[k].role.value, kept[k].content.value)
  {
    var w := HistoryWindow(history);
    var c := Collect(true, w, |w|);
    if c.Success? {
      InferenceMapsKept(w, |w|, c.value);
      Framed(SystemMessage(systemPrompt), c.value, UserMessage(userQuery));
    }
  }

  /** A failing entry after entries that all pass makes the whole collection fail with its error. */
  lemma FirstFailure(v: bool, w: seq<ChatEntry>, i: nat)
    requires i < |w|
    requires Collect(v, w, i).Success? && Turn(v, w[i]).Failure?
    ensures Collect(v, w, |w|) == Failure(Turn(v, w[i]).error)
  {
    CollectSucceeds(v, w, i);
    CollectFails(v, w, |w|, Turn(v, w[i]).error);
  }

  /** Builds the request by appending one message at a time, as both branches of the source do. */
  method AssembleMessages(usingInference: bool, systemPrompt: string, history: Option<seq<ChatEntry>>, userQuery: string)
    returns (r: Result<seq<Message>, string>)
    ensures r == Messages(usingInference, systemPrompt, history, userQuery)
    ensures r.Success? ==>
      |r.value| >= 2 && r.value[0] == SystemMessage(systemPrompt) && r.value[|r.value| - 1] == UserMessage(userQuery)
  {
    var messages := [SystemMessage(systemPrompt)];
    ghost var turns: seq<Message> := [];
    var w := HistoryWindow(history);
    var i := 0;
    while i < |w|
      invariant 0 <= i <= |w|
      invariant messages == [SystemMessage(systemPrompt)] + turns
      invariant Collect(usingInference, w, i) == Success(turns)
    {
      var t := Turn(usingInference, w[i]);
      if t.Failure? {
        FirstFailure(usingInference, w, i);
        return Failure(t.error);
      }
      messages := messages + t.value;
      turns := turns + t.value;
      i := i + 1;
    }
    messages := messages + [UserMessage(userQuery)];
    Framed(SystemMessage(systemPrompt), turns, UserMessage(userQuery));
    r := Success(messages);
  }
}

/** Handing a conversation over: it loses its system messages, and may be cut to a token limit. */
module Handoff {
  import opened Wrappers

  datatype Role = System | User | Assistant | Tool

  datatype Message = Message(role: Role, content: Option<string>)

  /** `truncatedFrom` is the message count a truncation notes in the metadata. */
  datatype Context = Context(systemPrompt: string, history: seq<Message>, truncatedFrom: Option<nat>)

  function Size(m: Message): nat {
    if m.content.Some? then |m.content.value| else 0
  }

  function TotalSize(ms: seq<Message>): nat {
    if ms == [] then 0 else Size(ms[0]) + TotalSize(ms[1..])
  }

  /** One token for every four characters, rounded up. */
  function EstimateTokens(c: Context): (n: nat)
    ensures 4 * (n - 1) < |c.systemPrompt| + TotalSize(c.history) <= 4 * n
  {
    (|c.systemPrompt| + TotalSize(c.history) + 3) / 4
  }

  function NotSystem(ms: seq<Message>): seq<Message> {
    if ms == [] then []
    else (if ms[0].role.System? then [] else [ms[0]]) + NotSystem(ms[1..])
  }

  function PrepareHandoff(systemPrompt: string, history: seq<Message>): Context {
    Context(systemPrompt, NotSystem(history), None)
  }

  function RebuildMessages(c: Context): seq<Message> {
    [Message(System, Some(c.systemPrompt))] + c.history
  }

  // ----- Truncation -------------------------------------------------------------------------------

  /** The history without the `k` messages after the first. */
  function Dropped(ms: seq<Message>, k: nat): seq<Message>
    requires k == 0 || k < |ms|
  {
    if k == 0 then ms else [ms[0]] + ms[k + 1..]
  }

  predicate Fits(c: Context, k: nat, maxTokens: real)
    requires k == 0 || k < |c.history|
  {
    EstimateTokens(c.(history := Dropped(c.history, k))) as real <= maxTokens
  }

  /** `k` is the least number of dropped messages that fits, or that leaves two. */
  predicate LeastDrop(c: Context, k: nat, maxTokens: real) {
    (k == 0 || k + 2 <= |c.history|)
    && (Fits(c, k, maxTokens) || |c.history| - k <= 2)
    && forall j | 0 <= j < k :: !Fits(c, j, maxTokens)
  }

  method TruncateContext(c: Context, maxTokens: real) returns (r: Context)
    ensures r.systemPrompt == c.systemPrompt
    ensures Fits(c, 0, maxTokens) ==> r == c
    ensures !Fits(c, 0, maxTokens) ==> r.truncatedFrom == Some(|c.history|)
    ensures exists k | LeastDrop(c, k, maxTokens) :: r.history == Dropped(c.history, k)
  {
    if EstimateTokens(c) as real <= maxTokens {
      assert LeastDrop(c, 0, maxTokens) && Dropped(c.history, 0) == c.history;
      return c;
    }
    var history := c.history;
    ghost var k := 0;
    while EstimateTokens(c.(history := history)) as real > maxTokens
      invariant k == 0 || k + 2 <= |c.history|
      invariant history == Dropped(c.history, k)
      invariant forall j | 0 <= j < k :: !Fits(c, j, maxTokens)
      decreases |history|
    {
      if |history| <= 2 {
        break;
      }
      history := history[..1] + history[2..];
      k := k + 1;
      assert history == Dropped(c.history, k);
    }
    assert LeastDrop(c, k, maxTokens);
    r := Context(c.systemPrompt, history, Some(|c.history|));
  }

  lemma {:induction false} TotalSizeOf(m: Message, ms: seq<Message>)
    ensures TotalSize([m] + ms) == Size(m) + TotalSize(ms)
  {
    assert ([m] + ms)[1..] == ms;
  }

  lemma OneMoreDropped(c: Context, k: nat)
    requires k + 2 <= |c.history|
    ensures EstimateTokens(c.(history := Dropped(c.history, k + 1)))
         <= EstimateTokens(c.(history := Dropped(c.history, k)))
  {
    var ms := c.history;
    var rest := ms[k + 1..];
    assert Dropped(ms, k) == [ms[0]] + rest;
    TotalSizeOf(ms[0], rest);
    TotalSizeOf(ms[0], ms[k + 2..]);
    assert rest == [ms[k + 1]] + ms[k + 2..];
  }

  /** Dropping more never costs tokens, so whatever is kept cannot be extended by a dropped message and still fit. */
  lemma {:induction false} FitIsMonotone(c: Context, j: nat, k: nat, maxTokens: real)
    requires j <= k && (k == 0 || k < |c.history|) && Fits(c, j, maxTokens)
    ensures Fits(c, k, maxTokens)
    decreases k - j
  {
    if j < k {
      OneMoreDropped(c, j);
      FitIsMonotone(c, j + 1, k, maxTokens);
    }
  }

  /** A truncated history of two or more keeps its first and its last message; what lies between keeps its order. */
  lemma TruncationKeepsEnds(c: Context, k: nat, maxTokens: real)
    requires LeastDrop(c, k, maxTokens) && |c.history| >= 2
    ensures
      var h := Dropped(c.history, k);
      |h| >= 2 && h[0] == c.history[0] && h[|h| - 1] == c.history[|c.history| - 1]
      && h[1..] == c.history[k + 1..]
  {
  }

  /** There is one least drop, and it drops fewer messages the higher the limit. */
  lemma LeastDropShrinks(c: Context, k: nat, m: nat, low: real, high: real)
    requires LeastDrop(c, k, low) && LeastDrop(c, m, high) && low <= high
    ensures m <= k
  {
    assert Fits(c, k, low) ==> Fits(c, k, high);
  }

  // ----- Handing over -------------------------------------------------------------------------------

  lemma {:induction false} NotSystemOnly(ms: seq<Message>)
    ensures forall m | m in NotSystem(ms) :: m in ms && !m.role.System?
  {
    if ms != [] {
      NotSystemOnly(ms[1..]);
    }
  }

  lemma {:induction false} NotSystemSame(ms: seq<Message>)
    requires forall m | m in ms :: !m.role.System?
    ensures NotSystem(ms) == ms
  {
    if ms != [] {
      NotSystemSame(ms[1..]);
    }
  }

  /**
   * However often it is handed over and cut, a rebuilt conversation has one system message, the current one, in front.
   */
  lemma OneSystemMessage(prompt: string, history: seq<Message>, k: nat, maxTokens: real)
    requires LeastDrop(PrepareHandoff(prompt, history), k, maxTokens)
    ensures
      var c := PrepareHandoff(prompt, history);
      var rebuilt := RebuildMessages(c.(history := Dropped(c.history, k)));
      rebuilt[0] == Message(System, Some(prompt)) && (forall i | 1 <= i < |rebuilt| :: !rebuilt[i].role.System?)
      && PrepareHandoff(prompt, rebuilt).history == Dropped(c.history, k)
  {
    var c := PrepareHandoff(prompt, history);
    var kept := Dropped(c.history, k);
    NotSystemOnly(history);
    forall m | m in kept ensures !m.role.System? {
      assert m in c.history;
    }
    NotSystemSame(kept);
    assert RebuildMessages(c.(history := kept))[1..] == kept;
  }
}

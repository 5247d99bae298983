/** Context generation for one chunk: a bounded retry loop around the
    language model with a linear backoff between attempts. The model is an
    oracle that says, for every call, whether `invoke` rejects or what value
    it resolves to; waits are recorded as millisecond values. */
module ContextGenerator {
  import opened Js

  /** What one `model.invoke` call does. */
  datatype Reply = Rejected | Resolved(value: Json)

  /** One invocation: the item and chunk it serves, the attempt number
      (counting from 0) and the prompt sent. */
  datatype Call = Call(item: nat, chunkIndex: nat, attempt: nat, prompt: string)

  type Model = Call -> Reply

  /** The fixed part of every call made for one chunk. */
  datatype Request = Request(item: nat, chunkIndex: nat, prompt: string)

  function CallOf(req: Request, attempt: nat): (c: Call)
  {
    Call(req.item, req.chunkIndex, attempt, req.prompt)
  }

  /** The first `n` calls made for one chunk, attempts 0 to n-1. */
  function CallsOf(req: Request, n: nat): (cs: seq<Call>)
    ensures |cs| == n
    ensures forall a :: 0 <= a < n ==> cs[a] == Call(req.item, req.chunkIndex, a, req.prompt)
  {
    seq(n, a requires 0 <= a => CallOf(req, a))
  }

  lemma CallsOfNext(req: Request, n: nat)
    ensures CallsOf(req, n + 1) == CallsOf(req, n) + [CallOf(req, n)]
  {
  }

  /** What becomes of `context` in the try block: `Some(text)` when the
      attempt completes, `None` when it ends in the catch block. Besides a
      rejection, a reply of `null` or `undefined` throws there, because its
      `content` property is read; any other non-string reply yields its
      `content` converted to a string, or "" when there is none. */
  function ReplyText(r: Reply): (t: Option<string>)
    ensures t.None? <==> r.Rejected? || r.value.Undefined? || r.value.Null?
    ensures r.Resolved? && r.value.Str? ==> t == Some(r.value.s)
    ensures r.Resolved? && r.value.Obj? && "content" !in r.value.fields ==> t == Some("")
    ensures r.Resolved? && r.value.Obj? && "content" in r.value.fields ==> t == Some(ContentText(r.value.fields["content"]))
    ensures r.Resolved? && (r.value.Bool? || r.value.Num? || r.value.Arr?) ==> t == Some("")
  {
    if r.Rejected? || r.value.Undefined? || r.value.Null? then None
    else Some(ReplyValueText(r.value))
  }

  /** The text of a reply that does not throw: a string is taken as it is;
      otherwise the `content` property is converted. */
  function ReplyValueText(v: Json): string
  {
    match v
    case Str(s) => s
    case Obj(m) => ContentText(Get(m, "content"))
    case _ => ""
  }

  /** `content?.toString() || ''`: the `||` only turns an empty string into
      another empty string, so it changes nothing. */
  function ContentText(c: Json): (s: string)
    ensures c.Undefined? || c.Null? ==> s == ""
    ensures c.Str? ==> s == c.s
    ensures c.Obj? ==> s == "[object Object]"
  {
    if c.Undefined? || c.Null? then "" else JsString(c)
  }

  /** A chat reply whose `content` is an array of content blocks, here one
      text block, yields the context "[object Object]": `toString()` joins
      the blocks, and each block is an object. */
  lemma ContentBlocksAsContext(block: Record)
    ensures ReplyText(Resolved(Obj(map["content" := Arr([Obj(block)])]))) == Some("[object Object]")
  {
    var blocks := Arr([Obj(block)]);
    var m := map["content" := blocks];
    assert Get(m, "content") == blocks;
    assert JoinFrom(blocks, 1) == "";
    assert JsString(blocks) == JoinFrom(blocks, 0) == "" + "[object Object]" + "";
    assert "" + "[object Object]" + "" == "[object Object]";
    assert ContentText(blocks) == "[object Object]";
    assert ReplyValueText(Obj(m)) == "[object Object]";
  }

  /** What the retry loop leaves behind: the context, how many times the
      model was invoked, and the waits in milliseconds in the order taken. */
  datatype Generation = Generation(context: string, calls: nat, delays: seq<nat>)

  /** The loop entered with `retries == k` and the waits `delays` taken so
      far; `context` is still "" there. */
  function RetryFrom(model: Model, req: Request, maxRetries: int, k: nat, delays: seq<nat>): (g: Generation)
    decreases if k < maxRetries then maxRetries - k else 0
  {
    if k >= maxRetries then Generation("", k, delays)
    else match ReplyText(model(CallOf(req, k)))
      case Some(t) => Generation(t, k + 1, delays)
      case None =>
        RetryFrom(model, req, maxRetries, k + 1,
                  if k + 1 < maxRetries then delays + [1000 * (k + 1)] else delays)
  }

  /** The whole loop for one chunk. */
  function Retry(model: Model, req: Request, maxRetries: int): Generation
  {
    RetryFrom(model, req, maxRetries, 0, [])
  }

  /** The waits 1000·lo, 1000·(lo+1), ..., 1000·(hi-1) ms. */
  function Waits(lo: nat, hi: nat): (w: seq<nat>)
  {
    seq(if lo < hi then hi - lo else 0, i => 1000 * (lo + i))
  }

  /** The model is invoked at most `maxRetries` times, never when
      `maxRetries <= 0`, and exactly one wait separates consecutive attempts. */
  lemma {:induction false} RetryBound(model: Model, req: Request, maxRetries: int, k: nat, delays: seq<nat>)
    ensures var g := RetryFrom(model, req, maxRetries, k, delays);
      && k <= g.calls <= (if k < maxRetries then maxRetries else k)
      && (g.calls == k <==> k >= maxRetries)
      && (g.calls == k ==> g.context == "" && g.delays == delays)
      && (g.calls > k ==> |g.delays| == |delays| + g.calls - k - 1)
    decreases if k < maxRetries then maxRetries - k else 0
  {
    if k < maxRetries && ReplyText(model(CallOf(req, k))).None? {
      RetryBound(model, req, maxRetries, k + 1,
                 if k + 1 < maxRetries then delays + [1000 * (k + 1)] else delays);
    }
  }

  /** The bound for a whole chunk: between 0 and `maxRetries` calls, none at
      all when `maxRetries <= 0` (the chunk then keeps no context), and one
      wait fewer than calls. */
  lemma RetryCalls(model: Model, req: Request, maxRetries: int)
    ensures var g := Retry(model, req, maxRetries);
      && g.calls <= (if maxRetries > 0 then maxRetries else 0)
      && (maxRetries <= 0 <==> g.calls == 0)
      && (maxRetries <= 0 ==> g == Generation("", 0, []))
      && (maxRetries > 0 ==> |g.delays| == g.calls - 1)
  {
    RetryBound(model, req, maxRetries, 0, []);
  }

  /** Every attempt from `k` on fails: the loop ends with context "" after
      `maxRetries` calls in all, no wait after the last failure. */
  lemma {:induction false} RetryAllFailFrom(model: Model, req: Request, maxRetries: int, k: nat)
    requires k < maxRetries
    requires forall a: nat :: k <= a < maxRetries ==> ReplyText(model(CallOf(req, a))).None?
    ensures RetryFrom(model, req, maxRetries, k, Waits(1, k + 1))
         == Generation("", maxRetries, Waits(1, maxRetries))
    decreases maxRetries - k
  {
    if k + 1 < maxRetries {
      assert Waits(1, k + 1) + [1000 * (k + 1)] == Waits(1, k + 2);
      RetryAllFailFrom(model, req, maxRetries, k + 1);
    }
  }

  /** When every attempt for a chunk fails, the context is "", the model was
      invoked exactly `maxRetries` times (never, when `maxRetries <= 0`), and
      the waits are 1000, 2000, ..., 1000·(maxRetries-1) ms. */
  lemma RetryAllFail(model: Model, req: Request, maxRetries: int)
    requires forall a: nat :: a < maxRetries ==> ReplyText(model(CallOf(req, a))).None?
    ensures var n: nat := if maxRetries > 0 then maxRetries else 0;
      Retry(model, req, maxRetries) == Generation("", n, Waits(1, n))
  {
    if maxRetries > 0 {
      assert Waits(1, 1) == [];
      RetryAllFailFrom(model, req, maxRetries, 0);
    }
  }

  /** Attempts `k` to `j-1` fail and attempt `j` completes. */
  lemma {:induction false} RetryFirstSuccessFrom(model: Model, req: Request, maxRetries: int, k: nat, j: nat)
    requires k <= j < maxRetries
    requires forall a: nat :: k <= a < j ==> ReplyText(model(CallOf(req, a))).None?
    requires ReplyText(model(CallOf(req, j))).Some?
    ensures RetryFrom(model, req, maxRetries, k, Waits(1, k + 1))
         == Generation(ReplyText(model(CallOf(req, j))).value, j + 1, Waits(1, j + 1))
    decreases j - k
  {
    if k < j {
      assert Waits(1, k + 1) + [1000 * (k + 1)] == Waits(1, k + 2);
      RetryFirstSuccessFrom(model, req, maxRetries, k + 1, j);
    }
  }

  /** The first attempt that completes ends the loop, whatever its text (an
      empty reply is not retried): that text is the context, the model was
      invoked `j + 1` times, and the waits were 1000, ..., 1000·j ms. */
  lemma RetryFirstSuccess(model: Model, req: Request, maxRetries: int, j: nat)
    requires j < maxRetries
    requires forall a: nat :: a < j ==> ReplyText(model(CallOf(req, a))).None?
    requires ReplyText(model(CallOf(req, j))).Some?
    ensures Retry(model, req, maxRetries)
         == Generation(ReplyText(model(CallOf(req, j))).value, j + 1, Waits(1, j + 1))
  {
    assert Waits(1, 1) == [];
    RetryFirstSuccessFrom(model, req, maxRetries, 0, j);
  }

  /** Two attempts allowed, the first rejected and the second answered "X":
      the context is "X", the model was invoked twice, and the loop waited
      once, for one second. */
  lemma RetryFailThenSucceed(model: Model, req: Request)
    requires model(CallOf(req, 0)).Rejected?
    requires model(CallOf(req, 1)) == Resolved(Str("X"))
    ensures Retry(model, req, 2) == Generation("X", 2, [1000])
  {
    RetryFirstSuccess(model, req, 2, 1);
    assert Waits(1, 2) == [1000];
  }

  /** The retry loop of one chunk. `calls` lists the invocations in order. */
  method GenerateContext(model: Model, req: Request, maxRetries: int)
    returns (context: string, calls: seq<Call>, delays: seq<nat>)
    ensures Generation(context, |calls|, delays) == Retry(model, req, maxRetries)
    ensures calls == CallsOf(req, |calls|)
  {
    var retries: nat := 0;
    context, calls, delays := "", [], [];
    while retries < maxRetries
      invariant calls == CallsOf(req, retries)
      invariant context == ""
      invariant Retry(model, req, maxRetries) == RetryFrom(model, req, maxRetries, retries, delays)
      decreases maxRetries - retries
    {
      var call := CallOf(req, retries);
      CallsOfNext(req, retries);
      calls := calls + [call];
      var text := ReplyText(model(call));
      if text.Some? {
        context := text.value;
        break;
      }
      retries := retries + 1;
      if retries >= maxRetries {
        context := "";
      } else {
        delays := delays + [1000 * retries];
      }
    }
  }
}

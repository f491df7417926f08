/** The image provider as the edit function uses it (`createNewImageFromPrompt` and
    `pollForResult` in supabase/functions/edit-room-image/index.ts): one submit call,
    then at most 60 status queries, one every 2000 ms. The provider is injected: the
    submit reply is a parameter, and `replies[k]` is the reply to the (k+1)-th status
    query. Waiting is counted in attempts, not in time. */
module Poller {
  import opened Js

  const MaxAttempts: nat := 60

  /** The reply to one status query: a non-2xx response, a 2xx response whose JSON body
      is `null`, or a 2xx response whose JSON body has a `status` and, when it is
      "Ready", a `result.sample`. */
  datatype StatusReply = NotOk | NullBody | Body(status: string, sample: string)

  predicate IsReady(r: StatusReply) { r.Body? && r.status == "Ready" }
  predicate IsFailed(r: StatusReply) { r.Body? && r.status == "Failed" }

  /** A reply that ends the polling: "Ready", "Failed", or a `null` body, on which
      reading `data.status` throws. */
  predicate Terminal(r: StatusReply) { IsReady(r) || IsFailed(r) || r.NullBody? }

  /** No reply among `replies[from..to]` ends the polling. */
  predicate NoneTerminal(replies: seq<StatusReply>, from: nat, to: nat)
    requires from <= to <= |replies|
  {
    forall k :: from <= k < to ==> !Terminal(replies[k])
  }

  datatype PollOutcome = Sample(sample: string) | GenerationFailed | StatusUnreadable | TimedOut

  /** How a polling run ends and how many status queries it issued. */
  datatype PollRun = PollRun(outcome: PollOutcome, queries: nat)

  /** The errors `pollForResult` throws. */
  function PollError(o: PollOutcome): string
  {
    match o
    case Sample(_) => ""
    case GenerationFailed => "Image generation failed"
    case StatusUnreadable => NullRead("status")
    case TimedOut => "Image generation timed out"
  }

  /** Reference definition of polling from attempt `i` on (attempts count from 0). */
  function PollFrom(replies: seq<StatusReply>, i: nat): PollRun
    requires i <= MaxAttempts <= |replies|
    decreases MaxAttempts - i
  {
    if i == MaxAttempts then PollRun(TimedOut, MaxAttempts)
    else if IsReady(replies[i]) then PollRun(Sample(replies[i].sample), i + 1)
    else if IsFailed(replies[i]) then PollRun(GenerationFailed, i + 1)
    else if replies[i].NullBody? then PollRun(StatusUnreadable, i + 1)
    else PollFrom(replies, i + 1)
  }

  /** What polling promises: it stops at the first terminal reply, returning that
      reply's sample when it is "Ready", failing when it is "Failed" and throwing when
      its body is `null`, issuing no query after it; non-2xx replies and other statuses
      are skipped but count as attempts; with no terminal reply among the 60 it times
      out after exactly 60 queries. */
  lemma {:induction false} PollFromCharacterized(replies: seq<StatusReply>, i: nat)
    requires i <= MaxAttempts <= |replies|
    ensures var run := PollFrom(replies, i);
      && i <= run.queries <= MaxAttempts
      && (run.outcome.TimedOut? <==> NoneTerminal(replies, i, MaxAttempts))
      && (run.outcome.TimedOut? ==> run.queries == MaxAttempts)
      && (!run.outcome.TimedOut? ==>
            i < run.queries && Terminal(replies[run.queries - 1])
            && NoneTerminal(replies, i, run.queries - 1))
      && (run.outcome.Sample? ==>
            IsReady(replies[run.queries - 1]) && run.outcome.sample == replies[run.queries - 1].sample)
      && (run.outcome.GenerationFailed? ==> IsFailed(replies[run.queries - 1]))
      && (run.outcome.StatusUnreadable? ==> replies[run.queries - 1].NullBody?)
    decreases MaxAttempts - i
  {
    if i < MaxAttempts && !Terminal(replies[i]) {
      PollFromCharacterized(replies, i + 1);
    }
  }

  /** `pollForResult(id, ...)`: the bounded loop, with the number of status queries it
      issued and the job id each of them carried, in order. */
  method PollForResult(id: Option<Value>, replies: seq<StatusReply>)
    returns (outcome: PollOutcome, queries: nat, polled: seq<Option<Value>>)
    requires MaxAttempts <= |replies|
    ensures PollRun(outcome, queries) == PollFrom(replies, 0)
    ensures |polled| == queries && forall k :: 0 <= k < |polled| ==> polled[k] == id
    ensures queries <= MaxAttempts
    ensures outcome.TimedOut? ==> queries == MaxAttempts && NoneTerminal(replies, 0, MaxAttempts)
    ensures outcome.Sample? ==>
      0 < queries && replies[queries - 1] == Body("Ready", outcome.sample) && NoneTerminal(replies, 0, queries - 1)
    ensures outcome.GenerationFailed? ==>
      0 < queries && IsFailed(replies[queries - 1]) && NoneTerminal(replies, 0, queries - 1)
    ensures outcome.StatusUnreadable? ==>
      0 < queries && replies[queries - 1].NullBody? && NoneTerminal(replies, 0, queries - 1)
  {
    PollFromCharacterized(replies, 0);
    polled := [];
    var i := 0;
    while i < MaxAttempts
      invariant 0 <= i <= MaxAttempts
      invariant NoneTerminal(replies, 0, i)
      invariant PollFrom(replies, i) == PollFrom(replies, 0)
      invariant |polled| == i && forall k :: 0 <= k < |polled| ==> polled[k] == id
    {
      polled := polled + [id];
      var reply := replies[i];
      if reply.NotOk? {
        i := i + 1;
        continue;
      }
      if reply.NullBody? {
        return StatusUnreadable, i + 1, polled;
      }
      if reply.status == "Ready" {
        return Sample(reply.sample), i + 1, polled;
      } else if reply.status == "Failed" {
        return GenerationFailed, i + 1, polled;
      }
      i := i + 1;
    }
    return TimedOut, MaxAttempts, polled;
  }

  /** The reply to the submit POST: `ok`, the error text read when it is not, and the
      JSON body read when it is (the job id is its `id`). */
  datatype SubmitReply = SubmitReply(ok: bool, text: string, body: Value)

  /** `data.id`: the job id every status query carries. */
  function JobId(submit: SubmitReply): Option<Value>
  {
    Get(Some(submit.body), "id")
  }

  /** The JSON body posted to the provider's edit endpoint. */
  function SubmitBody(prompt: string, inputImage: string): Value
  {
    Obj(map["prompt" := Str(prompt), "input_image" := Str(inputImage),
            "seed" := Num(42.0), "output_format" := Str("jpeg")])
  }

  /** The provider receives the prompt and the input image unchanged, with seed 42 and
      the jpeg output format. */
  lemma SubmitBodyFields(prompt: string, inputImage: string)
    ensures var body := SubmitBody(prompt, inputImage);
      && Get(Some(body), "prompt") == Some(Str(prompt))
      && Get(Some(body), "input_image") == Some(Str(inputImage))
      && Get(Some(body), "seed") == Some(Num(42.0))
      && Get(Some(body), "output_format") == Some(Str("jpeg"))
  {
  }

  /** How a generation request ends: the sample or the thrown message, and the number
      of status queries issued. */
  datatype GenRun = GenRun(result: Result<string, string>, queries: nat)

  /** Reference definition of `createNewImageFromPrompt` on the server. */
  function Generate(submit: SubmitReply, replies: seq<StatusReply>): (run: GenRun)
    requires MaxAttempts <= |replies|
  {
    if !submit.ok then GenRun(Failure("Failed to initiate image generation: " + submit.text), 0)
    else if submit.body.Null? then GenRun(Failure(NullRead("id")), 0)
    else
      var p := PollFrom(replies, 0);
      if p.outcome.Sample? then GenRun(Success(p.outcome.sample), p.queries)
      else GenRun(Failure(PollError(p.outcome)), p.queries)
  }

  /** A generation succeeds exactly when the submit call is accepted and some reply
      among the first 60 status queries is terminal, the first such being "Ready";
      its sample is the result. A rejected submit, or an accepted one whose body is
      `null`, issues no status query. */
  lemma GenerateCharacterized(submit: SubmitReply, replies: seq<StatusReply>)
    requires MaxAttempts <= |replies|
    ensures var run := Generate(submit, replies);
      && (!submit.ok ==>
            run.queries == 0 && run.result == Failure("Failed to initiate image generation: " + submit.text))
      && (submit.ok && submit.body.Null? ==> run.queries == 0 && run.result == Failure(NullRead("id")))
      && run.queries <= MaxAttempts
      && (run.result.Success? <==>
            submit.ok && !submit.body.Null? && exists k :: 0 <= k < MaxAttempts && IsReady(replies[k]) && NoneTerminal(replies, 0, k))
      && (run.result.Success? ==>
            0 < run.queries && replies[run.queries - 1] == Body("Ready", run.result.value))
  {
    PollFromCharacterized(replies, 0);
  }

  /** `createNewImageFromPrompt` on the server: submit, then poll the job it names. */
  method CreateNewImageFromPrompt(submit: SubmitReply, replies: seq<StatusReply>)
    returns (result: Result<string, string>, queries: nat, polled: seq<Option<Value>>)
    requires MaxAttempts <= |replies|
    ensures GenRun(result, queries) == Generate(submit, replies)
    ensures |polled| == queries && forall k :: 0 <= k < |polled| ==> polled[k] == JobId(submit)
    ensures !submit.ok || submit.body.Null? ==> queries == 0
  {
    if !submit.ok {
      return Failure("Failed to initiate image generation: " + submit.text), 0, [];
    }
    if submit.body.Null? {
      return Failure(NullRead("id")), 0, [];
    }
    var outcome, n;
    outcome, n, polled := PollForResult(JobId(submit), replies);
    if outcome.Sample? {
      result := Success(outcome.sample);
    } else {
      result := Failure(PollError(outcome));
    }
    queries := n;
  }
}

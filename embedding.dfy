/** The embedding client wrapper: lazy client creation and the bounded retry with doubling
    wait. The embedding service itself is an input: `call(k)` is the outcome of the request
    made on attempt `k`. */
module Embedding {
  import opened Wrappers

  /** A client handle (`AsyncOpenAI` / `OpenAI`) built from an API key. */
  datatype Client = Client(apiKey: string)

  /** An embedding vector; its floating-point components are abstracted to integers. */
  type Vector = seq<int>

  const MaxRetries: nat := 3

  const MissingKeyMessage: string :=
    "OPENAI_API_KEY is not set. Please provide it via parameter or environment variable."

  function Pow2(k: nat): nat {
    if k == 0 then 1 else 2 * Pow2(k - 1)
  }

  /** What a run of the retry loop did: its result, the seconds slept, the attempts made. */
  datatype Retry<T> = Retry(result: Outcome<T>, waits: seq<nat>, attempts: nat)

  /** Reference definition of the retry loop from attempt `attempt` on. */
  function RetryFrom<T>(attempt: nat, outcome: nat -> Outcome<T>): Retry<T>
    requires attempt < MaxRetries
    decreases MaxRetries - attempt
  {
    match outcome(attempt)
    case Done(v) => Retry(Done(v), [], attempt + 1)
    case Raised(e) =>
      if attempt == MaxRetries - 1 then Retry(Raised(e), [], attempt + 1)
      else
        var rest := RetryFrom(attempt + 1, outcome);
        Retry(rest.result, [Pow2(attempt)] + rest.waits, rest.attempts)
  }

  /** The retry policy: at most three attempts; every attempt before the last one made
      failed; the result is the last attempt's outcome, so a success is returned at once and
      a third failure re-raises that failure; after failed attempt k the loop sleeps 2^k
      seconds (1, then 2). */
  lemma {:induction false} RetryPolicy<T>(attempt: nat, outcome: nat -> Outcome<T>)
    requires attempt < MaxRetries
    decreases MaxRetries - attempt
    ensures var r := RetryFrom(attempt, outcome);
      && attempt < r.attempts <= MaxRetries
      && (forall k :: attempt <= k < r.attempts - 1 ==> outcome(k).Raised?)
      && r.result == outcome(r.attempts - 1)
      && (r.result.Raised? ==> r.attempts == MaxRetries)
      && |r.waits| == r.attempts - 1 - attempt
      && (forall i :: 0 <= i < |r.waits| ==> r.waits[i] == Pow2(attempt + i))
  {
    if outcome(attempt).Raised? && attempt < MaxRetries - 1 {
      RetryPolicy(attempt + 1, outcome);
    }
  }

  /** From the first attempt: one to three attempts, waits of 1 then 2 seconds. */
  lemma RetryWaits<T>(outcome: nat -> Outcome<T>)
    ensures var r := RetryFrom(0, outcome);
      && 1 <= r.attempts <= 3
      && r.waits == [1, 2][..r.attempts - 1]
      && (outcome(0).Done? ==> r.attempts == 1 && r.result == outcome(0))
  {
    RetryPolicy(0, outcome);
    var r := RetryFrom(0, outcome);
    assert Pow2(1) == 2;
  }

  /** The loop stops at an attempt that succeeds or is the last one. */
  lemma RetryStops<T>(attempt: nat, outcome: nat -> Outcome<T>, waits: seq<nat>)
    requires attempt < MaxRetries && (outcome(attempt).Done? || attempt == MaxRetries - 1)
    ensures var whole := RetryFrom(attempt, outcome);
      Retry(whole.result, waits + whole.waits, whole.attempts) == Retry(outcome(attempt), waits, attempt + 1)
  {
    assert waits + [] == waits;
  }

  /** After a failed attempt that is not the last, the loop sleeps and goes on. */
  lemma RetryGoesOn<T>(attempt: nat, outcome: nat -> Outcome<T>, waits: seq<nat>)
    requires attempt < MaxRetries - 1 && outcome(attempt).Raised?
    ensures var whole := RetryFrom(attempt, outcome);
      var rest := RetryFrom(attempt + 1, outcome);
      Retry(whole.result, waits + whole.waits, whole.attempts)
        == Retry(rest.result, (waits + [Pow2(attempt)]) + rest.waits, rest.attempts)
  {
    var rest := RetryFrom(attempt + 1, outcome);
    assert waits + ([Pow2(attempt)] + rest.waits) == (waits + [Pow2(attempt)]) + rest.waits;
  }

  /** What each attempt of `async_get_embeddings` yields: with no key, `_ensure_client`
      raises before any request; otherwise the service's answer. */
  function AttemptOutcomes(key: Option<string>, call: nat -> Outcome<seq<Vector>>): nat -> Outcome<seq<Vector>> {
    (k: nat) => if Truthy(key) then call(k) else Raised(MissingKeyMessage)
  }

  /** The clients `_ensure_client` leaves: with no key, nothing changes (it raises); with a
      key, both are created when either is missing and kept when both exist. */
  function EnsuredClients(key: Option<string>, asyncClient: Option<Client>, client: Option<Client>)
    : (r: (Option<Client>, Option<Client>))
    ensures !Truthy(key) ==> r == (asyncClient, client)
    ensures Truthy(key) ==> r.0.Some? && r.1.Some?
    ensures Truthy(key) && asyncClient.Some? && client.Some? ==> r == (asyncClient, client)
    ensures Truthy(key) && (asyncClient.None? || client.None?) ==>
      r == (Some(Client(key.value)), Some(Client(key.value)))
  {
    if Truthy(key) && (asyncClient.None? || client.None?) then
      (Some(Client(key.value)), Some(Client(key.value)))
    else (asyncClient, client)
  }

  /** Ensuring the clients a second time changes nothing, so repeated requests leave the
      clients the first one left. */
  lemma EnsuredIdempotent(key: Option<string>, asyncClient: Option<Client>, client: Option<Client>)
    ensures var once := EnsuredClients(key, asyncClient, client);
      EnsuredClients(key, once.0, once.1) == once
  {
  }

  class EmbeddingModel {
    var apiKey: Option<string>
    var modelName: string
    var asyncClient: Option<Client>
    var client: Option<Client>

    /** `api_key or os.getenv("OPENAI_API_KEY")`; both clients exist only when a key does. */
    constructor (modelName: string, apiKey: Option<string>, envKey: Option<string>)
      ensures this.apiKey == (if Truthy(apiKey) then apiKey else envKey)
      ensures this.modelName == modelName
      ensures Truthy(this.apiKey) ==>
        asyncClient == Some(Client(this.apiKey.value)) && client == Some(Client(this.apiKey.value))
      ensures !Truthy(this.apiKey) ==> asyncClient.None? && client.None?
    {
      var key := if Truthy(apiKey) then apiKey else envKey;
      this.apiKey := key;
      this.modelName := modelName;
      if Truthy(key) {
        asyncClient := Some(Client(key.value));
        client := Some(Client(key.value));
      } else {
        asyncClient := None;
        client := None;
      }
    }

    /** `_ensure_client`: raises when there is no key; otherwise creates both clients when
        either is missing, and leaves them alone when both exist. */
    method EnsureClient() returns (error: Option<string>)
      modifies this
      ensures apiKey == old(apiKey) && modelName == old(modelName)
      ensures !Truthy(apiKey) <==> error == Some(MissingKeyMessage)
      ensures !Truthy(apiKey) ==> asyncClient == old(asyncClient) && client == old(client)
      ensures Truthy(apiKey) ==> error.None? && asyncClient.Some? && client.Some?
      ensures Truthy(apiKey) && old(asyncClient).Some? && old(client).Some? ==>
        asyncClient == old(asyncClient) && client == old(client)
      ensures Truthy(apiKey) && (old(asyncClient).None? || old(client).None?) ==>
        asyncClient == Some(Client(apiKey.value)) && client == Some(Client(apiKey.value))
      ensures (asyncClient, client) == EnsuredClients(apiKey, old(asyncClient), old(client))
    {
      if !Truthy(apiKey) {
        return Some(MissingKeyMessage);
      }
      if asyncClient.None? || client.None? {
        asyncClient := Some(Client(apiKey.value));
        client := Some(Client(apiKey.value));
      }
      error := None;
    }

    /** `async_get_embeddings`: makes sure the clients exist, then asks the service. */
    method GetEmbeddings(texts: seq<string>, response: Outcome<seq<Vector>>)
      returns (r: Outcome<seq<Vector>>)
      modifies this
      ensures apiKey == old(apiKey) && modelName == old(modelName)
      ensures r == if Truthy(apiKey) then response else Raised(MissingKeyMessage)
      ensures (asyncClient, client) == EnsuredClients(apiKey, old(asyncClient), old(client))
    {
      var error := EnsureClient();
      if error.Some? {
        return Raised(error.value);
      }
      r := response;
    }

    /** `async_get_embeddings_with_backoff`: the retry loop. `call(k)` is the service's answer
        to the request of attempt `k`; `waits` lists the seconds slept. */
    method GetEmbeddingsWithBackoff(texts: seq<string>, call: nat -> Outcome<seq<Vector>>)
      returns (r: Outcome<seq<Vector>>, waits: seq<nat>, attempts: nat)
      modifies this
      ensures apiKey == old(apiKey) && modelName == old(modelName)
      ensures Retry(r, waits, attempts) == RetryFrom(0, AttemptOutcomes(old(apiKey), call))
      ensures (asyncClient, client) == EnsuredClients(apiKey, old(asyncClient), old(client))
    {
      ghost var outcome := AttemptOutcomes(apiKey, call);
      waits := [];
      r := Raised("");
      attempts := 0;
      for attempt := 0 to MaxRetries
        invariant apiKey == old(apiKey) && modelName == old(modelName)
        invariant attempt < MaxRetries
        invariant attempts == attempt
        invariant attempt == 0 ==> asyncClient == old(asyncClient) && client == old(client)
        invariant attempt > 0 ==> (asyncClient, client) == EnsuredClients(apiKey, old(asyncClient), old(client))
        invariant RetryFrom(0, outcome) == 
          var rest := RetryFrom(attempt, outcome);
          Retry(rest.result, waits + rest.waits, rest.attempts)
      {
        var answer := GetEmbeddings(texts, call(attempt));
        EnsuredIdempotent(apiKey, old(asyncClient), old(client));
        assert answer == outcome(attempt);
        attempts := attempts + 1;
        if answer.Done? || attempt == MaxRetries - 1 {
          RetryStops(attempt, outcome, waits);
          return answer, waits, attempts;
        }
        var waitTime := Pow2(attempt);
        RetryGoesOn(attempt, outcome, waits);
        waits := waits + [waitTime];
      }
      assert false;  // the trailing `return []` of the source is unreachable
    }
  }
}

/**
 * godad: print one dad joke that has not been printed before.
 *
 * This module models the acquisition loop `getFreshJoke`, the fallback
 * decision of `main` and the random pick `getRandomJokeFromDB` of main.go.
 * The joke API and the SQLite table are the two collaborators: the API is a
 * script of replies served in order through a counter, and the table is the
 * sequence of stored joke texts in id order, together with the set of SQL
 * statements the driver fails. Unlike the mock server of the package's tests,
 * which wraps around to its first reply, the script is served once: past its
 * end every request fails as if no server answered.
 */
module Godad {

  /** Number of attempts `getFreshJoke` makes before giving up. */
  const MAX_RETRIES: nat := 5

  datatype Result<T, E> = Ok(value: T) | Err(error: E)

  /** The four error returns of `getJoke`. */
  datatype ApiFailure = RequestFailed | SendFailed | ReadFailed | JsonFailed

  /**
   * What one call of `getJoke` yields: the `joke` field of the decoded reply
   * (any string, the empty one included: nothing checks it), or a failure.
   */
  datatype Fetch = Fetched(text: string) | FetchFailed(cause: ApiFailure)

  /** Why a statement against the `jokes` table gave no answer. */
  datatype StoreError = DriverFault | NoRows

  /** The four error returns of `getFreshJoke`. */
  datatype FreshError =
    | ApiError(cause: ApiFailure)  // error fetching joke from API
    | LookupError                  // error checking joke existence
    | InsertError                  // error inserting joke
    | NoNewJoke(attempts: nat)     // could not find a new joke after N attempts

  /** How a run of the program ends: one joke on standard output, or a fatal log line. */
  datatype Exit = Printed(joke: string) | Fatal(freshError: FreshError, pickError: StoreError)

  /**
   * The reply to the n-th request: the script is served in order; once it is
   * used up, no server answers any more.
   */
  function Reply(script: seq<Fetch>, n: nat): Fetch {
    if n < |script| then script[n] else FetchFailed(SendFailed)
  }

  /**
   * The joke API as seen from `getJoke`: the n-th request made in the
   * process gets reply `Reply(script, n)`; `served` requests were made so far.
   */
  class JokeApi {
    const script: seq<Fetch>
    var served: nat

    constructor (script: seq<Fetch>)
      ensures this.script == script && served == 0
    {
      this.script := script;
      served := 0;
    }

    /** One HTTP round trip: consumes exactly the next reply. */
    method GetJoke() returns (f: Fetch)
      modifies this`served
      ensures served == old(served) + 1
      ensures f == Reply(script, old(served))
    {
      f := Reply(script, served);
      served := served + 1;
    }
  }

  /**
   * The `jokes` table: `jokes[i]` is the `joke` column of the row with the
   * (i+1)-th id. The table lives in a database file that persists across
   * runs, so a run starts from the jokes earlier runs stored. Every statement issued against the table takes the next
   * number in `statements`; the driver fails statement n when n is in `faults`.
   */
  class JokeStore {
    var jokes: seq<string>
    const faults: set<nat>
    var statements: nat

    /** Opening the database: the table holds the jokes stored by earlier runs (none on the first run). */
    constructor (jokes: seq<string>, faults: set<nat>)
      ensures this.jokes == jokes && this.faults == faults && statements == 0
    {
      this.jokes := jokes;
      this.faults := faults;
      statements := 0;
    }

    /** SELECT COUNT(*) FROM jokes WHERE joke = ? */
    method CountMatches(text: string) returns (r: Result<nat, StoreError>)
      modifies this`statements
      ensures statements == old(statements) + 1
      ensures old(statements) in faults ==> r == Err(DriverFault)
      ensures old(statements) !in faults ==> r == Ok(multiset(jokes)[text])
    {
      if statements in faults {
        r := Err(DriverFault);
      } else {
        r := Ok(multiset(jokes)[text]);
      }
      statements := statements + 1;
    }

    /** INSERT INTO jokes (joke) VALUES (?) */
    method Insert(text: string) returns (ok: bool)
      modifies this`jokes, this`statements
      ensures statements == old(statements) + 1
      ensures ok == (old(statements) !in faults)
      ensures jokes == if ok then old(jokes) + [text] else old(jokes)
    {
      ok := statements !in faults;
      if ok {
        jokes := jokes + [text];
      }
      statements := statements + 1;
    }

    /**
     * SELECT joke FROM jokes ORDER BY RANDOM() LIMIT 1: any stored joke;
     * no row when the table is empty.
     */
    method RandomJoke() returns (r: Result<string, StoreError>)
      modifies this`statements
      ensures statements == old(statements) + 1
      ensures old(statements) in faults ==> r == Err(DriverFault)
      ensures old(statements) !in faults && jokes == [] ==> r == Err(NoRows)
      ensures old(statements) !in faults && jokes != [] ==> r.Ok? && r.value in jokes
    {
      if statements in faults {
        r := Err(DriverFault);
      } else if jokes == [] {
        r := Err(NoRows);
      } else {
        var i :| 0 <= i < |jokes|;
        r := Ok(jokes[i]);
      }
      statements := statements + 1;
    }
  }

  /** The observable effect of a call: what it returned and the state it left behind. */
  datatype Run = Run(outcome: Result<string, FreshError>, jokes: seq<string>, served: nat, statements: nat)

  /** No text is stored twice. */
  predicate NoDuplicates(s: seq<string>) {
    forall i, j :: 0 <= i < j < |s| ==> s[i] != s[j]
  }

  /**
   * How one attempt ends: the text fetched is already stored, or the call
   * settles with `outcome`, leaving the table as `jokes` after `statements`
   * statements in all.
   */
  datatype Try = Duplicate | Settled(outcome: Result<string, FreshError>, jokes: seq<string>, statements: nat)

  /**
   * One attempt of `getFreshJoke` on reply `reply`, starting from table
   * `jokes` at the `statements`-th statement: a lookup (COUNT(*) of exact
   * matches), then an insert when the count is zero.
   */
  function TryReply(jokes: seq<string>, reply: Fetch, faults: set<nat>, statements: nat): Try {
    match reply
    case FetchFailed(cause) =>
      Settled(Err(ApiError(cause)), jokes, statements)
    case Fetched(text) =>
      if statements in faults then
        Settled(Err(LookupError), jokes, statements + 1)
      else if multiset(jokes)[text] != 0 then
        Duplicate
      else if statements + 1 in faults then
        Settled(Err(InsertError), jokes, statements + 2)
      else
        Settled(Ok(text), jokes + [text], statements + 2)
  }

  /**
   * The retry loop of `getFreshJoke` with `left` attempts still to make,
   * starting from table `jokes`, the `served`-th reply and the
   * `statements`-th statement.
   */
  function Attempts(jokes: seq<string>, script: seq<Fetch>, faults: set<nat>,
                    served: nat, statements: nat, left: nat): Run
    decreases left
  {
    if left == 0 then
      Run(Err(NoNewJoke(MAX_RETRIES)), jokes, served, statements)
    else
      match TryReply(jokes, Reply(script, served), faults, statements)
      case Duplicate => Attempts(jokes, script, faults, served + 1, statements + 1, left - 1)
      case Settled(outcome, after, used) => Run(outcome, after, served + 1, used)
  }

  /** One call of `getFreshJoke`. */
  function FreshRun(jokes: seq<string>, script: seq<Fetch>, faults: set<nat>,
                    served: nat, statements: nat): Run
  {
    Attempts(jokes, script, faults, served, statements, MAX_RETRIES)
  }

  /** One pass of the loop body of `getFreshJoke`: fetch, look up, insert if new. */
  method TryOnce(store: JokeStore, api: JokeApi) returns (t: Try)
    modifies store, api
    ensures t == TryReply(old(store.jokes), Reply(api.script, old(api.served)), store.faults, old(store.statements))
    ensures api.served == old(api.served) + 1
    ensures t.Duplicate? ==> store.jokes == old(store.jokes) && store.statements == old(store.statements) + 1
    ensures t.Settled? ==> store.jokes == t.jokes && store.statements == t.statements
  {
    var fetch := api.GetJoke();
    if fetch.FetchFailed? {
      return Settled(Err(ApiError(fetch.cause)), store.jokes, store.statements);
    }
    var count := store.CountMatches(fetch.text);
    if count.Err? {
      return Settled(Err(LookupError), store.jokes, store.statements);
    }
    if count.value != 0 {
      return Duplicate;
    }
    var ok := store.Insert(fetch.text);
    if !ok {
      return Settled(Err(InsertError), store.jokes, store.statements);
    }
    return Settled(Ok(fetch.text), store.jokes, store.statements);
  }

  /**
   * getFreshJoke: fetch replies until one is not yet stored, store it and
   * return it; give up on the first failure or after MAX_RETRIES replies.
   */
  method GetFreshJoke(store: JokeStore, api: JokeApi) returns (r: Result<string, FreshError>)
    modifies store, api
    ensures Run(r, store.jokes, api.served, store.statements)
         == FreshRun(old(store.jokes), api.script, store.faults, old(api.served), old(store.statements))
    ensures old(api.served) < api.served <= old(api.served) + MAX_RETRIES
    ensures r.Ok? ==> r.value !in old(store.jokes) && store.jokes == old(store.jokes) + [r.value]
    ensures r.Err? ==> store.jokes == old(store.jokes)
    ensures NoDuplicates(old(store.jokes)) ==> NoDuplicates(store.jokes)
  {
    ghost var spec := FreshRun(store.jokes, api.script, store.faults, api.served, store.statements);
    FreshRunEffect(store.jokes, api.script, store.faults, api.served, store.statements);
    var i := 0;
    while i < MAX_RETRIES
      invariant 0 <= i <= MAX_RETRIES
      invariant store.jokes == old(store.jokes)
      invariant api.served == old(api.served) + i
      invariant spec == Attempts(store.jokes, api.script, store.faults, api.served, store.statements, MAX_RETRIES - i)
    {
      var t := TryOnce(store, api);
      if t.Settled? {
        return t.outcome;
      }
      i := i + 1;
    }
    return Err(NoNewJoke(MAX_RETRIES));
  }

  /**
   * The joke-getting part of `main`: a fresh joke if there is one, otherwise
   * any stored joke, otherwise a fatal error.
   */
  method TellJoke(store: JokeStore, api: JokeApi) returns (exit: Exit)
    modifies store, api
    ensures var attempt := FreshRun(old(store.jokes), api.script, store.faults, old(api.served), old(store.statements));
            && (attempt.outcome.Ok? ==> exit == Printed(attempt.outcome.value) && store.jokes == attempt.jokes)
            && (attempt.outcome.Err? ==>
                  && store.jokes == old(store.jokes)
                  && (exit.Printed? ==> exit.joke in old(store.jokes))
                  && (exit.Fatal? <==> old(store.jokes) == [] || attempt.statements in store.faults)
                  && (exit.Fatal? ==>
                        && exit.freshError == attempt.outcome.error
                        && exit.pickError == (if attempt.statements in store.faults then DriverFault else NoRows)))
  {
    var attempt := GetFreshJoke(store, api);
    if attempt.Ok? {
      return Printed(attempt.value);
    }
    var fallback := store.RandomJoke();
    if fallback.Err? {
      return Fatal(attempt.error, fallback.error);
    }
    return Printed(fallback.value);
  }

  /**
   * A call with `left` attempts to make consumes at least one reply when
   * `left` is positive and never more than `left`; it issues at most two
   * statements per reply consumed. Only running out of attempts ends it with
   * the "no new joke" error, and then all `left` replies were consumed.
   */
  lemma {:induction false} AttemptsConsume(jokes: seq<string>, script: seq<Fetch>, faults: set<nat>,
                                           served: nat, statements: nat, left: nat)
    ensures var r := Attempts(jokes, script, faults, served, statements, left);
            && served <= r.served <= served + left
            && (left > 0 ==> served < r.served)
            && statements <= r.statements <= statements + 2 * (r.served - served)
            && (r.outcome.Err? && r.outcome.error.NoNewJoke? ==>
                  r.outcome.error.attempts == MAX_RETRIES && r.served == served + left)
    decreases left
  {
    if left > 0 && Reply(script, served).Fetched? && statements !in faults && Reply(script, served).text in jokes {
      AttemptsConsume(jokes, script, faults, served + 1, statements + 1, left - 1);
    }
  }

  /**
   * What a call can end in. Success: the returned text came from the last
   * reply consumed, was not stored, and is appended. Failure: the table is
   * unchanged, and an API error is the last reply consumed. Either way every
   * reply consumed before the last was a text already stored, and when the
   * attempts ran out, all of them were.
   */
  lemma {:induction false} FreshOutcome(jokes: seq<string>, script: seq<Fetch>, faults: set<nat>,
                                        served: nat, statements: nat, left: nat)
    ensures var r := Attempts(jokes, script, faults, served, statements, left);
            && (r.outcome.Ok? ==>
                  && served < r.served
                  && r.outcome.value !in jokes
                  && r.jokes == jokes + [r.outcome.value]
                  && Reply(script, r.served - 1) == Fetched(r.outcome.value))
            && (r.outcome.Err? ==> r.jokes == jokes)
            && (r.outcome.Err? && r.outcome.error.ApiError? ==>
                  served < r.served && Reply(script, r.served - 1) == FetchFailed(r.outcome.error.cause))
            && (forall k :: served <= k < r.served - 1 ==>
                  Reply(script, k).Fetched? && Reply(script, k).text in jokes)
            && (r.outcome.Err? && r.outcome.error.NoNewJoke? ==>
                  forall k :: served <= k < r.served ==> Reply(script, k).Fetched? && Reply(script, k).text in jokes)
            && (r.outcome.Err? && (r.outcome.error.LookupError? || r.outcome.error.InsertError?) ==>
                  statements < r.statements && r.statements - 1 in faults)
    decreases left
  {
    if left > 0 && Reply(script, served).Fetched? && statements !in faults && Reply(script, served).text in jokes {
      FreshOutcome(jokes, script, faults, served + 1, statements + 1, left - 1);
    }
  }

  /**
   * An attempt that fetches a text already stored leaves the table as it is
   * and moves on to the next reply, one attempt fewer.
   */
  lemma DuplicateMovesOn(jokes: seq<string>, script: seq<Fetch>, faults: set<nat>,
                         served: nat, statements: nat, left: nat)
    requires left > 0
    requires Reply(script, served).Fetched? && Reply(script, served).text in jokes
    requires statements !in faults
    ensures Attempts(jokes, script, faults, served, statements, left)
         == Attempts(jokes, script, faults, served + 1, statements + 1, left - 1)
  {
  }

  /** The effect of one call on the table, as `GetFreshJoke` promises it. */
  lemma FreshRunEffect(jokes: seq<string>, script: seq<Fetch>, faults: set<nat>,
                       served: nat, statements: nat)
    ensures var r := FreshRun(jokes, script, faults, served, statements);
            && served < r.served <= served + MAX_RETRIES
            && (r.outcome.Ok? ==> r.outcome.value !in jokes && r.jokes == jokes + [r.outcome.value])
            && (r.outcome.Err? ==> r.jokes == jokes)
            && (NoDuplicates(jokes) ==> NoDuplicates(r.jokes))
  {
    AttemptsConsume(jokes, script, faults, served, statements, MAX_RETRIES);
    FreshOutcome(jokes, script, faults, served, statements, MAX_RETRIES);
    if NoDuplicates(jokes) {
      KeepsNoDuplicates(jokes, script, faults, served, statements);
    }
  }

  /** A call never stores a text twice. */
  lemma KeepsNoDuplicates(jokes: seq<string>, script: seq<Fetch>, faults: set<nat>,
                          served: nat, statements: nat)
    requires NoDuplicates(jokes)
    ensures NoDuplicates(FreshRun(jokes, script, faults, served, statements).jokes)
  {
    var r := FreshRun(jokes, script, faults, served, statements);
    FreshOutcome(jokes, script, faults, served, statements, MAX_RETRIES);
    if r.outcome.Ok? {
      forall i, j | 0 <= i < j < |r.jokes| ensures r.jokes[i] != r.jokes[j] {
        if j == |jokes| {
          assert r.jokes[i] == jokes[i];
        }
      }
    }
  }

  /**
   * When the next replies are all texts already stored and the driver does
   * not fail, the call gives up after exactly `left` replies and changes nothing.
   */
  lemma {:induction false} StoredRepliesExhaust(jokes: seq<string>, script: seq<Fetch>, faults: set<nat>,
                                                served: nat, statements: nat, left: nat)
    requires forall k :: served <= k < served + left ==> Reply(script, k).Fetched? && Reply(script, k).text in jokes
    requires forall n :: statements <= n < statements + left ==> n !in faults
    ensures Attempts(jokes, script, faults, served, statements, left)
         == Run(Err(NoNewJoke(MAX_RETRIES)), jokes, served + left, statements + left)
    decreases left
  {
    if left > 0 {
      assert Reply(script, served).Fetched? && Reply(script, served).text in jokes;
      assert statements !in faults;
      StoredRepliesExhaust(jokes, script, faults, served + 1, statements + 1, left - 1);
    }
  }

  /**
   * An API error on attempt `k` (counted from 0) after `k` stored texts ends
   * the call with that error: the table is unchanged and no later reply is
   * consumed.
   */
  lemma {:induction false} ApiErrorStops(jokes: seq<string>, script: seq<Fetch>, faults: set<nat>,
                                         served: nat, statements: nat, left: nat, k: nat)
    requires k < left
    requires forall m :: served <= m < served + k ==> Reply(script, m).Fetched? && Reply(script, m).text in jokes
    requires forall n :: statements <= n < statements + k ==> n !in faults
    requires Reply(script, served + k).FetchFailed?
    ensures Attempts(jokes, script, faults, served, statements, left)
         == Run(Err(ApiError(Reply(script, served + k).cause)), jokes, served + k + 1, statements + k)
    decreases k
  {
    if k > 0 {
      assert Reply(script, served).Fetched? && Reply(script, served).text in jokes;
      assert statements !in faults;
      ApiErrorStops(jokes, script, faults, served + 1, statements + 1, left - 1, k - 1);
    }
  }

  /**
   * A driver failure on attempt `k` (counted from 0) after `k` stored texts
   * ends the call at once: a failed lookup with the lookup error, a failed
   * insert of a new text with the insert error. The table is unchanged and no
   * later reply is consumed.
   */
  lemma {:induction false} StoreErrorStops(jokes: seq<string>, script: seq<Fetch>, faults: set<nat>,
                                           served: nat, statements: nat, left: nat, k: nat)
    requires k < left
    requires forall m :: served <= m < served + k ==> Reply(script, m).Fetched? && Reply(script, m).text in jokes
    requires forall n :: statements <= n < statements + k ==> n !in faults
    requires Reply(script, served + k).Fetched?
    ensures statements + k in faults ==>
              Attempts(jokes, script, faults, served, statements, left)
              == Run(Err(LookupError), jokes, served + k + 1, statements + k + 1)
    ensures Reply(script, served + k).text !in jokes && statements + k !in faults && statements + k + 1 in faults ==>
              Attempts(jokes, script, faults, served, statements, left)
              == Run(Err(InsertError), jokes, served + k + 1, statements + k + 2)
    decreases k
  {
    if k > 0 {
      assert Reply(script, served).Fetched? && Reply(script, served).text in jokes;
      assert statements !in faults;
      StoreErrorStops(jokes, script, faults, served + 1, statements + 1, left - 1, k - 1);
    }
  }

  /** An API that always returns the same text: the second call finds nothing new after MAX_RETRIES replies. */
  lemma SameTextTwice(text: string, jokes: seq<string>)
    requires text !in jokes
    ensures var always := seq(1 + MAX_RETRIES, _ => Fetched(text));
            var first := FreshRun(jokes, always, {}, 0, 0);
            var second := FreshRun(first.jokes, always, {}, first.served, first.statements);
            && first == Run(Ok(text), jokes + [text], 1, 2)
            && second == Run(Err(NoNewJoke(MAX_RETRIES)), jokes + [text], 1 + MAX_RETRIES, 2 + MAX_RETRIES)
  {
    StoredRepliesExhaust(jokes + [text], seq(1 + MAX_RETRIES, _ => Fetched(text)), {}, 1, 2, MAX_RETRIES);
  }

  const FIRST := "This is the first joke"
  const SECOND := "This is the second joke"
  const THIRD := "This is the third joke"

  /**
   * TestGetFreshJoke: against an empty table and a mock server that answers
   * first, second, first, third, three calls return the first, second and
   * third joke, and the table ends holding exactly those, in that order.
   */
  method MockServerScenario() returns (a: Result<string, FreshError>, b: Result<string, FreshError>,
                                       c: Result<string, FreshError>, stored: seq<string>)
    ensures a == Ok(FIRST) && b == Ok(SECOND) && c == Ok(THIRD)
    ensures stored == [FIRST, SECOND, THIRD]
  {
    var store := new JokeStore([], {});
    var api := new JokeApi([Fetched(FIRST), Fetched(SECOND), Fetched(FIRST), Fetched(THIRD)]);
    a := GetFreshJoke(store, api);
    b := GetFreshJoke(store, api);
    c := GetFreshJoke(store, api);
    stored := store.jokes;
  }
}

/** `ApiTestHelper`: creates test users, products, orders and companies
    through the API and remembers each created resource as
    "{collection}/{key}" in a ledger; cleanup deletes every remembered
    resource, in creation order, logging and skipping deletes that throw,
    and then empties the ledger.

    The generated payloads come from a data generator and are given here by
    the text the creation is logged with; the object the server returns is
    given by its key field, absent when the body reads as null. */
module ApiHelper {
  import opened Common
  import opened Text
  import opened World

  /** The four kinds of test data the helper creates. */
  datatype ResourceKind = User | Product | Order | Company

  /** The API collection of a kind. */
  function Collection(kind: ResourceKind): string
  {
    match kind
    case User => "users"
    case Product => "products"
    case Order => "orders"
    case Company => "companies"
  }

  /** The line a creation is logged with; `subject` is the generated
      username, product name or company name, or the order's item count. */
  function CreationMessage(kind: ResourceKind, subject: string): string
  {
    match kind
    case User => "Creating test user: " + subject
    case Product => "Creating test product: " + subject
    case Order => "Creating test order with " + subject + " items"
    case Company => "Creating test company: " + subject
  }

  /** The calls a creation makes: its log line and the POST. */
  function CreateEffects(kind: ResourceKind, subject: string, payload: string): seq<Effect>
  {
    [Logged(Information, CreationMessage(kind, subject)), HttpSent("POST", "/api/" + Collection(kind), Some(payload))]
  }

  /** The ledger entry of a created resource. */
  function LedgerEntry(kind: ResourceKind, key: string): string
  {
    Collection(kind) + "/" + key
  }

  /** What a creation answers: the status error, the null-reference error of
      reading a key from a null body, or the created key. */
  function CreateOutcome(response: HttpResponse, returnedKey: Option<string>): (r: Result<string>)
    ensures r.Err? <==> !IsSuccess(response.status) || returnedKey.None?
    ensures !IsSuccess(response.status) ==> r == Err(StatusError(response))
    ensures IsSuccess(response.status) && returnedKey.None? ==> r == Err(NullFault)
    ensures r.Ok? ==> r.value == returnedKey.value
  {
    if !IsSuccess(response.status) then Err(StatusError(response))
    else if returnedKey.None? then Err(NullFault)
    else Ok(returnedKey.value)
  }

  /** The calls the cleanup loop makes for the first `n` ledger entries:
      one DELETE each, and a warning after each one that throws. */
  function DeleteEffects(ledger: seq<string>, faults: map<nat, Exception>, n: nat): seq<Effect>
    requires n <= |ledger|
  {
    if n == 0 then []
    else
      DeleteEffects(ledger, faults, n - 1)
      + [HttpSent("DELETE", "/api/" + ledger[n - 1], None)]
      + (if n - 1 in faults then [LoggedException(LogLevel.Warning, "Failed to delete test resource: " + ledger[n - 1], faults[n - 1])] else [])
  }

  /** The targets of the DELETE requests of a log, in order. */
  function Deleted(log: seq<Effect>): seq<string>
  {
    if log == [] then []
    else (if log[0].HttpSent? && log[0].verb == "DELETE" then [log[0].url] else []) + Deleted(log[1..])
  }

  lemma {:induction false} DeletedAppend(a: seq<Effect>, b: seq<Effect>)
    ensures Deleted(a + b) == Deleted(a) + Deleted(b)
    decreases |a|
  {
    if a == [] {
      assert a + b == b;
    } else {
      assert (a + b)[1..] == a[1..] + b;
      DeletedAppend(a[1..], b);
    }
  }

  class ApiTestHelper {
    const world: World
    /** `_createdResources`. */
    var ledger: seq<string>

    constructor(world: World)
      ensures this.world == world && ledger == []
    {
      this.world := world;
      ledger := [];
    }

    /** One of the four `CreateTest*Async` methods: `payload` is the
        serialised generated data, `response` the server's answer. The
        ledger grows by one entry exactly when the creation succeeds. */
    method Create(kind: ResourceKind, subject: string, payload: string, response: HttpResponse,
                  returnedKey: Option<string>)
      returns (r: Result<string>)
      modifies this`ledger, world
      ensures world.log == old(world.log) + CreateEffects(kind, subject, payload)
      ensures r == CreateOutcome(response, returnedKey)
      ensures r.Ok? ==> ledger == old(ledger) + [LedgerEntry(kind, r.value)]
      ensures r.Err? ==> ledger == old(ledger)
    {
      world.log := world.log + [Logged(Information, CreationMessage(kind, subject))];
      world.log := world.log + [HttpSent("POST", "/api/" + Collection(kind), Some(payload))];
      if !IsSuccess(response.status) {
        return Err(StatusError(response));
      }
      if returnedKey.None? {
        return Err(NullFault);
      }
      ledger := ledger + [LedgerEntry(kind, returnedKey.value)];
      r := Ok(returnedKey.value);
    }

    /** `CleanupTestResourcesAsync`: `faults` maps a ledger position to what
        its DELETE throws. */
    method CleanupTestResourcesAsync(faults: map<nat, Exception>)
      modifies this`ledger, world
      ensures ledger == []
      ensures world.log == old(world.log)
                + [Logged(Information, "Cleaning up " + IntToString(|old(ledger)|) + " test resources")]
                + DeleteEffects(old(ledger), faults, |old(ledger)|)
    {
      world.log := world.log + [Logged(Information, "Cleaning up " + IntToString(|ledger|) + " test resources")];
      ghost var start := world.log;
      var i := 0;
      while i < |ledger|
        invariant ledger == old(ledger)
        invariant 0 <= i <= |ledger|
        invariant world.log == start + DeleteEffects(ledger, faults, i)
      {
        world.log := world.log + [HttpSent("DELETE", "/api/" + ledger[i], None)];
        if i in faults {
          world.log := world.log + [LoggedException(LogLevel.Warning, "Failed to delete test resource: " + ledger[i], faults[i])];
        }
        i := i + 1;
      }
      ledger := [];
    }

    /** `GetCreatedResources`: the ledger, in creation order. */
    method GetCreatedResources() returns (resources: seq<string>)
      ensures resources == ledger
    {
      resources := ledger;
    }
  }

  /** Whatever the deletes throw, cleanup sends one DELETE per ledger entry,
      to "/api/{entry}", in creation order. */
  lemma {:induction false} OneDeletePerEntry(ledger: seq<string>, faults: map<nat, Exception>, n: nat)
    requires n <= |ledger|
    ensures Deleted(DeleteEffects(ledger, faults, n)) == seq(n, i requires 0 <= i < n => "/api/" + ledger[i])
  {
    if n > 0 {
      OneDeletePerEntry(ledger, faults, n - 1);
      var before := DeleteEffects(ledger, faults, n - 1);
      var request := [HttpSent("DELETE", "/api/" + ledger[n - 1], None)];
      var warning := if n - 1 in faults then [LoggedException(LogLevel.Warning, "Failed to delete test resource: " + ledger[n - 1], faults[n - 1])] else [];
      DeletedAppend(before + request, warning);
      DeletedAppend(before, request);
      assert Deleted(request) == ["/api/" + ledger[n - 1]] + Deleted([]);
      if n - 1 in faults {
        assert Deleted(warning) == [] + Deleted([]);
      }
    }
  }

  /** A failed delete is logged as a warning naming the entry, right after
      its request. */
  lemma FailedDeleteIsWarned(ledger: seq<string>, faults: map<nat, Exception>, i: nat)
    requires i < |ledger| && i in faults
    ensures DeleteEffects(ledger, faults, i)
              + [HttpSent("DELETE", "/api/" + ledger[i], None),
                 LoggedException(LogLevel.Warning, "Failed to delete test resource: " + ledger[i], faults[i])]
            <= DeleteEffects(ledger, faults, |ledger|)
  {
    DeletePrefix(ledger, faults, i + 1, |ledger|);
  }

  lemma {:induction false} DeletePrefix(ledger: seq<string>, faults: map<nat, Exception>, m: nat, n: nat)
    requires m <= n <= |ledger|
    ensures DeleteEffects(ledger, faults, m) <= DeleteEffects(ledger, faults, n)
    decreases n - m
  {
    if m < n {
      DeletePrefix(ledger, faults, m, n - 1);
    }
  }

  lemma CollectionHasNoSlash(kind: ResourceKind)
    ensures '/' !in Collection(kind)
  {
    var c := Collection(kind);
    forall i | 0 <= i < |c|
      ensures c[i] != '/'
    {
    }
  }

  /** The ledger entries of the four kinds never collide: an entry names
      its collection. */
  lemma EntriesNameTheirCollection(k1: ResourceKind, key1: string, k2: ResourceKind, key2: string)
    requires '/' !in key1 && '/' !in key2
    ensures LedgerEntry(k1, key1) == LedgerEntry(k2, key2) <==> k1 == k2 && key1 == key2
  {
    var e1 := LedgerEntry(k1, key1);
    var e2 := LedgerEntry(k2, key2);
    if e1 == e2 {
      var c1 := Collection(k1);
      var c2 := Collection(k2);
      CollectionHasNoSlash(k1);
      CollectionHasNoSlash(k2);
      assert e1 == c1 + ['/'] + key1 && e2 == c2 + ['/'] + key2;
      SplitWithoutSeparator(c1, '/');
      SplitWithoutSeparator(c2, '/');
      SplitWithoutSeparator(key1, '/');
      SplitWithoutSeparator(key2, '/');
      SplitAtSeparator(c1, '/', key1);
      SplitAtSeparator(c2, '/', key2);
      assert Split(e1, '/') == [c1, key1];
      assert Split(e2, '/') == [c2, key2];
      assert c1 == c2 && key1 == key2;
    }
  }
}

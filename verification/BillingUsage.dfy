/**
 * Recording metered usage and its outbox row in one transaction (src/db/usage.ts), with the units of
 * src/generation/billing/policy.ts. Tokens, seconds and units are integers; the quotient that is
 * rounded is a real.
 */
module BillingUsage {
  import opened Wrappers

  datatype Tokens = Tokens(input: int, output: int, cacheRead: int, cacheWrite: int)

  datatype Rates = Rates(input: int, output: int, cacheRead: int, cacheWrite: int)

  /** The integer rates frozen for one row. */
  datatype RateSnapshot = RateSnapshot(meterEventName: string, modelRates: map<string, Rates>, vcpuUnitsPerSecond: int, gibUnitsPerSecond: int)

  datatype UsageRow = UsageRow(
    orgId: nat,
    stage: string,
    managed: bool,
    managedModel: bool,
    managedSandbox: bool,
    sandboxId: string,
    model: Option<string>,
    tokens: Option<Tokens>,
    sandboxSeconds: int,
    cpu: Option<int>,
    memoryMiB: Option<int>)

  /** Half up, as Math.round. */
  function Rounded(x: real): int {
    (x + 0.5).Floor
  }

  function ModelUnits(rates: RateSnapshot, row: UsageRow): int {
    if row.model.None? || row.model.value == "" || row.tokens.None? || row.model.value !in rates.modelRates then 0
    else
      var rate, tokens := rates.modelRates[row.model.value], row.tokens.value;
      Rounded((tokens.input * rate.input + tokens.output * rate.output
               + tokens.cacheRead * rate.cacheRead + tokens.cacheWrite * rate.cacheWrite) as real / 1_000_000.0)
  }

  function SandboxUnits(rates: RateSnapshot, row: UsageRow): int {
    var vcpu := if row.cpu.Some? then row.cpu.value else 4;
    var mib := if row.memoryMiB.Some? then row.memoryMiB.value else 8192;
    Rounded(row.sandboxSeconds as real
            * (vcpu as real * rates.vcpuUnitsPerSecond as real + mib as real / 1024.0 * rates.gibUnitsPerSecond as real))
  }

  /** A recorded row with its units; `id` is its key. */
  datatype Usage = Usage(id: nat, row: UsageRow, modelUnits: int, sandboxUnits: int) {
    function Units(): int { modelUnits + sandboxUnits }
  }

  datatype Event = Event(id: nat, usageId: nat, orgId: nat, eventName: string, customerId: string, value: int)

  datatype Books = Books(usage: seq<Usage>, events: seq<Event>, nextUsage: nat, nextEvent: nat)

  const NO_BOOKS := Books([], [], 0, 0)

  /** One call of record: the row, the rates in force, and its organization's Stripe customer. */
  datatype Call = Call(row: UsageRow, rates: RateSnapshot, customer: Option<string>)

  function UsageOf(call: Call, id: nat): Usage {
    Usage(id, call.row,
          if call.row.managed && call.row.managedModel then ModelUnits(call.rates, call.row) else 0,
          if call.row.managed && call.row.managedSandbox then SandboxUnits(call.rates, call.row) else 0)
  }

  /** A sandbox's usage is already on the books. */
  predicate Known(books: Books, sandboxId: string) {
    sandboxId != "" && exists u :: u in books.usage && u.row.sandboxId == sandboxId
  }

  predicate Billed(call: Call) {
    call.row.managed && UsageOf(call, 0).Units() > 0 && call.customer.Some? && call.customer.value != ""
  }

  function EventOf(call: Call, usageId: nat, id: nat): Event
    requires Billed(call)
  {
    Event(id, usageId, call.row.orgId, call.rates.meterEventName, call.customer.value, UsageOf(call, usageId).Units())
  }

  function Recorded(books: Books, call: Call): Books {
    if Known(books, call.row.sandboxId) then books.(nextUsage := books.nextUsage + 1)
    else
      var id := books.nextUsage;
      var noted := books.(usage := books.usage + [UsageOf(call, id)], nextUsage := id + 1);
      if Billed(call) then noted.(events := books.events + [EventOf(call, id, books.nextEvent)], nextEvent := books.nextEvent + 1)
      else noted
  }

  class Ledger {
    var usage: seq<Usage>
    var events: seq<Event>
    var nextUsage: nat
    var nextEvent: nat

    constructor ()
      ensures Snapshot() == NO_BOOKS
    {
      usage, events, nextUsage, nextEvent := [], [], 0, 0;
    }

    function Snapshot(): Books
      reads this
    {
      Books(usage, events, nextUsage, nextEvent)
    }

    /** Inserts unless a usage row has the sandbox id; the key is used up either way. */
    method InsertUsage(row: UsageRow, modelUnits: int, sandboxUnits: int) returns (inserted: Option<nat>)
      modifies this`usage, this`nextUsage
      ensures nextUsage == old(nextUsage) + 1
      ensures inserted == if Known(old(Snapshot()), row.sandboxId) then None else Some(old(nextUsage))
      ensures usage == if inserted.None? then old(usage) else old(usage) + [Usage(old(nextUsage), row, modelUnits, sandboxUnits)]
    {
      var id := nextUsage;
      nextUsage := nextUsage + 1;
      var taken := row.sandboxId != "" && exists u :: u in usage && u.row.sandboxId == row.sandboxId;
      if taken {
        return None;
      }
      usage := usage + [Usage(id, row, modelUnits, sandboxUnits)];
      return Some(id);
    }

    method Record(call: Call)
      modifies this
      ensures Snapshot() == Recorded(old(Snapshot()), call)
    {
      var row := call.row;
      var rates := if row.managed then Some(call.rates) else None;
      var modelUnits := 0;
      if rates.Some? && row.managedModel {
        modelUnits := ModelUnits(rates.value, row);
      }
      var sandboxUnits := 0;
      if rates.Some? && row.managedSandbox {
        sandboxUnits := SandboxUnits(rates.value, row);
      }
      var inserted := InsertUsage(row, modelUnits, sandboxUnits);
      var totalUnits := modelUnits + sandboxUnits;
      if inserted.None? || rates.None? || totalUnits <= 0 {
        return;
      }
      if call.customer.None? || call.customer.value == "" {
        return;
      }
      events := events + [Event(nextEvent, inserted.value, row.orgId, rates.value.meterEventName, call.customer.value, totalUnits)];
      nextEvent := nextEvent + 1;
    }
  }

  // ---- Any run of calls ----

  function After(calls: seq<Call>): Books {
    if calls == [] then NO_BOOKS else Recorded(After(calls[..|calls| - 1]), calls[|calls| - 1])
  }

  /** One row per sandbox, keys in order, and for each event one usage row whose units it carries. */
  ghost predicate Sound(books: Books) {
    && (forall i :: 0 <= i < |books.usage| ==> books.usage[i].id < books.nextUsage)
    && (forall i, j :: 0 <= i < j < |books.usage| ==>
          && books.usage[i].id != books.usage[j].id
          && (books.usage[i].row.sandboxId == "" || books.usage[i].row.sandboxId != books.usage[j].row.sandboxId))
    && (forall k :: 0 <= k < |books.events| ==> CarriesUnits(books, books.events[k]))
    && (forall k, l :: 0 <= k < l < |books.events| ==> books.events[k].usageId != books.events[l].usageId)
  }

  predicate CarriesUnits(books: Books, event: Event) {
    exists u :: u in books.usage && u.id == event.usageId && event.value == u.Units() > 0 && event.orgId == u.row.orgId
  }

  lemma CarriesStill(books: Books, more: Usage, next: nat, event: Event)
    requires CarriesUnits(books, event)
    ensures CarriesUnits(books.(usage := books.usage + [more], nextUsage := next), event)
  {
    var u :| u in books.usage && u.id == event.usageId && event.value == u.Units() > 0 && event.orgId == u.row.orgId;
    assert u in books.usage + [more];
  }

  function Noted(books: Books, more: Usage): Books {
    books.(usage := books.usage + [more], nextUsage := books.nextUsage + 1)
  }

  lemma NotedSound(books: Books, more: Usage)
    requires Sound(books) && more.id == books.nextUsage && !Known(books, more.row.sandboxId)
    ensures Sound(Noted(books, more))
    ensures forall k :: 0 <= k < |books.events| ==> books.events[k].usageId < books.nextUsage
  {
    forall k | 0 <= k < |books.events|
      ensures CarriesUnits(Noted(books, more), books.events[k]) && books.events[k].usageId < books.nextUsage
    {
      CarriesStill(books, more, books.nextUsage + 1, books.events[k]);
      var u :| u in books.usage && u.id == books.events[k].usageId;
    }
    forall i | 0 <= i < |books.usage|
      ensures more.row.sandboxId == "" || books.usage[i].row.sandboxId != more.row.sandboxId
    {
      assert books.usage[i] in books.usage;
    }
  }

  lemma BilledSound(books: Books, more: Usage, event: Event)
    requires Sound(books) && Sound(Noted(books, more)) && more.id == books.nextUsage
    requires forall k :: 0 <= k < |books.events| ==> books.events[k].usageId < books.nextUsage
    requires event.usageId == more.id && event.value == more.Units() > 0 && event.orgId == more.row.orgId
    ensures Sound(Noted(books, more).(events := books.events + [event], nextEvent := books.nextEvent + 1))
  {
    var noted := Noted(books, more);
    var after := noted.(events := books.events + [event], nextEvent := books.nextEvent + 1);
    assert more in after.usage && CarriesUnits(after, event);
    forall k | 0 <= k < |books.events|
      ensures CarriesUnits(after, books.events[k])
    {
      assert CarriesUnits(noted, noted.events[k]);
    }
  }

  lemma RecordedSound(books: Books, call: Call)
    requires Sound(books)
    ensures Sound(Recorded(books, call))
  {
    if !Known(books, call.row.sandboxId) {
      NotedSound(books, UsageOf(call, books.nextUsage));
      if Billed(call) {
        BilledSound(books, UsageOf(call, books.nextUsage), EventOf(call, books.nextUsage, books.nextEvent));
      }
    }
  }

  /** However often sandboxes are replayed, each has one usage row and each usage at most one event, for its units. */
  lemma {:induction false} BooksStaySound(calls: seq<Call>)
    ensures Sound(After(calls))
  {
    if calls != [] {
      BooksStaySound(calls[..|calls| - 1]);
      RecordedSound(After(calls[..|calls| - 1]), calls[|calls| - 1]);
    }
  }

  // ---- Replays ----

  predicate Seen(calls: seq<Call>, sandboxId: string) {
    sandboxId != "" && exists c :: c in calls && c.row.sandboxId == sandboxId
  }

  lemma {:induction false} KnownOnceSeen(calls: seq<Call>, sandboxId: string)
    ensures Known(After(calls), sandboxId) <==> Seen(calls, sandboxId)
  {
    if calls != [] {
      var n := |calls| - 1;
      KnownOnceSeen(calls[..n], sandboxId);
      var before, after := After(calls[..n]), After(calls);
      assert calls == calls[..n] + [calls[n]];
      if Known(before, calls[n].row.sandboxId) {
        KnownOnceSeen(calls[..n], calls[n].row.sandboxId);
      } else {
        assert after.usage == before.usage + [UsageOf(calls[n], before.nextUsage)];
      }
    }
  }

  /** A call for a sandbox recorded before, whatever it says, adds no usage and no event. */
  lemma ReplayAddsNothing(calls: seq<Call>, again: Call)
    requires Seen(calls, again.row.sandboxId)
    ensures After(calls + [again]).usage == After(calls).usage
    ensures After(calls + [again]).events == After(calls).events
  {
    KnownOnceSeen(calls, again.row.sandboxId);
    assert (calls + [again])[..|calls|] == calls;
  }

  function ValueOf(events: seq<Event>): int {
    if events == [] then 0 else ValueOf(events[..|events| - 1]) + events[|events| - 1].value
  }

  /** The units of the billed calls, counting each sandbox's first only. */
  function FirstUnits(calls: seq<Call>): int {
    if calls == [] then 0
    else
      var n := |calls| - 1;
      FirstUnits(calls[..n])
      + if !Seen(calls[..n], calls[n].row.sandboxId) && Billed(calls[n]) then UsageOf(calls[n], 0).Units() else 0
  }

  /** What the outbox will bill in all is each sandbox's first record, once. */
  lemma {:induction false} EachSandboxBilledOnce(calls: seq<Call>)
    ensures ValueOf(After(calls).events) == FirstUnits(calls)
  {
    if calls != [] {
      var n := |calls| - 1;
      var before := After(calls[..n]);
      EachSandboxBilledOnce(calls[..n]);
      KnownOnceSeen(calls[..n], calls[n].row.sandboxId);
      if !Known(before, calls[n].row.sandboxId) && Billed(calls[n]) {
        var event := EventOf(calls[n], before.nextUsage, before.nextEvent);
        assert (before.events + [event])[..|before.events|] == before.events;
        assert event.value == UsageOf(calls[n], 0).Units();
      }
    }
  }

  // ---- What is billed ----

  /** Tokens at the model's rates, in millionths of a unit. */
  function TokensAtRates(tokens: Tokens, rate: Rates): int {
    tokens.input * rate.input + tokens.output * rate.output + tokens.cacheRead * rate.cacheRead + tokens.cacheWrite * rate.cacheWrite
  }

  lemma NearestInteger(x: real)
    ensures x - 0.5 < Rounded(x) as real <= x + 0.5
  {
  }

  /** Model units are the nearest whole number to the tokens at their rates, a half rounding up; a row
      without a model with rates, or without tokens, has none. */
  lemma ModelUnitsAreNearest(rates: RateSnapshot, row: UsageRow)
    ensures if row.model.Some? && row.model.value != "" && row.tokens.Some? && row.model.value in rates.modelRates then
              var rate, tokens, units := rates.modelRates[row.model.value], row.tokens.value, ModelUnits(rates, row);
              TokensAtRates(tokens, rate) - 500_000 < 1_000_000 * units <= TokensAtRates(tokens, rate) + 500_000
            else ModelUnits(rates, row) == 0
  {
    if row.model.Some? && row.model.value != "" && row.tokens.Some? && row.model.value in rates.modelRates {
      var total := TokensAtRates(row.tokens.value, rates.modelRates[row.model.value]);
      NearestMillionth(total);
    }
  }

  lemma NearestMillionth(total: int)
    ensures total - 500_000 < 1_000_000 * Rounded(total as real / 1_000_000.0) <= total + 500_000
  {
    var x := total as real / 1_000_000.0;
    NearestInteger(x);
    assert 1_000_000.0 * x == total as real;
    assert (1_000_000 * Rounded(x)) as real == 1_000_000.0 * Rounded(x) as real;
  }

  /** Sandbox units are the nearest whole number to its seconds at the rates of its cores and memory;
      where the row does not say, four cores and eight GiB. */
  lemma SandboxUnitsAreNearest(rates: RateSnapshot, row: UsageRow)
    ensures var cores := if row.cpu == None then 4 else row.cpu.value;
            var mib := if row.memoryMiB == None then 8192 else row.memoryMiB.value;
            var exact := row.sandboxSeconds as real
                         * (cores as real * rates.vcpuUnitsPerSecond as real + mib as real / 1024.0 * rates.gibUnitsPerSecond as real);
            exact - 0.5 < SandboxUnits(rates, row) as real <= exact + 0.5
  {
  }

  /** The usage a call records, field by field: what is not managed costs nothing. */
  predicate Records(usage: Usage, call: Call) {
    && usage.row == call.row
    && usage.modelUnits == (if call.row.managed && call.row.managedModel then ModelUnits(call.rates, call.row) else 0)
    && usage.sandboxUnits == (if call.row.managed && call.row.managedSandbox then SandboxUnits(call.rates, call.row) else 0)
  }

  /** The event billed for a usage: its units, to its organization's customer, under the meter's name. */
  predicate Bills(event: Event, usage: Usage, call: Call) {
    && event.usageId == usage.id && event.orgId == call.row.orgId && event.eventName == call.rates.meterEventName
    && Some(event.customerId) == call.customer && event.value == usage.modelUnits + usage.sandboxUnits
  }

  /** The first record of a sandbox adds its usage, and an event exactly when it is managed, has units
      and the organization has a customer. */
  lemma FirstRecordIsBilled(calls: seq<Call>, call: Call)
    requires !Seen(calls, call.row.sandboxId)
    ensures var before, after := After(calls), After(calls + [call]);
            && |after.usage| == |before.usage| + 1 && before.usage == after.usage[..|before.usage|]
            && var usage := after.usage[|before.usage|];
            && Records(usage, call)
            && (if call.row.managed && usage.modelUnits + usage.sandboxUnits > 0 && call.customer != None && call.customer != Some("") then
                  && |after.events| == |before.events| + 1 && before.events == after.events[..|before.events|]
                  && Bills(after.events[|before.events|], usage, call)
                else after.events == before.events)
  {
    KnownOnceSeen(calls, call.row.sandboxId);
    assert (calls + [call])[..|calls|] == calls;
  }
}

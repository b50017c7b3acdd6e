/** Connection-local send limits, as by-value builders. */
module SendOptions {
  import opened Errors

  const MAX_BYTES: int := 64 * 1024 * 1024

  datatype SendOptions = SendOptions(
    inFlightFrames: int, inFlightBytes: int, reliableQueueBytes: int, unreliableQueueBytes: int, flushBytes: int)
  {
    /** What every value built from the default through the setters satisfies. */
    predicate Valid() {
      && 1 <= inFlightFrames <= 4096
      && 2048 <= inFlightBytes <= MAX_BYTES
      && 2048 <= reliableQueueBytes && 2048 <= unreliableQueueBytes
      && reliableQueueBytes + unreliableQueueBytes <= MAX_BYTES
      && 2048 <= flushBytes <= MAX_BYTES
    }

    function WithInFlightLimits(frames: nat, bytes: nat): (r: Result<SendOptions>)
      ensures r.Ok? <==> 1 <= frames <= 4096 && 2048 <= bytes <= MAX_BYTES
      ensures r.Ok? ==> r.value == this.(inFlightFrames := frames, inFlightBytes := bytes)
      ensures r.Ok? && Valid() ==> r.value.Valid()
    {
      if !(1 <= frames <= 4096) || !(2048 <= bytes <= MAX_BYTES) then Err(InvalidOptions)
      else Ok(this.(inFlightFrames := frames, inFlightBytes := bytes))
    }

    function WithQueueBudgets(reliable: nat, unreliable: nat): (r: Result<SendOptions>)
      ensures r.Ok? <==> 2048 <= reliable && 2048 <= unreliable && reliable + unreliable <= MAX_BYTES
      ensures r.Ok? ==> r.value == this.(reliableQueueBytes := reliable, unreliableQueueBytes := unreliable)
      ensures r.Ok? && Valid() ==> r.value.Valid()
    {
      if reliable < 2048 || unreliable < 2048 || reliable + unreliable > MAX_BYTES then Err(InvalidOptions)
      else Ok(this.(reliableQueueBytes := reliable, unreliableQueueBytes := unreliable))
    }

    function WithFlushBudget(bytes: nat): (r: Result<SendOptions>)
      ensures r.Ok? <==> 2048 <= bytes <= MAX_BYTES
      ensures r.Ok? ==> r.value == this.(flushBytes := bytes)
      ensures r.Ok? && Valid() ==> r.value.Valid()
    {
      if !(2048 <= bytes <= MAX_BYTES) then Err(InvalidOptions) else Ok(this.(flushBytes := bytes))
    }
  }

  function DefaultOptions(): (o: SendOptions)
    ensures o.Valid()
  {
    SendOptions(64, MAX_BYTES, 256 * 1024, 64 * 1024, 256 * 1024)
  }

  /** One call of a setter. */
  datatype Setting =
    | InFlight(frames: nat, bytes: nat)
    | Queues(reliable: nat, unreliable: nat)
    | FlushBudget(budget: nat)

  function Apply(o: SendOptions, setting: Setting): Result<SendOptions> {
    match setting
    case InFlight(frames, bytes) => o.WithInFlightLimits(frames, bytes)
    case Queues(reliable, unreliable) => o.WithQueueBudgets(reliable, unreliable)
    case FlushBudget(budget) => o.WithFlushBudget(budget)
  }

  /** The value a chain of setters builds from the preset, up to the first refusal. */
  function Built(settings: seq<Setting>): (r: Result<SendOptions>)
    ensures r.Ok? ==> r.value.Valid()
  {
    if settings == [] then Ok(DefaultOptions())
    else
      var front :- Built(settings[..|settings| - 1]);
      Apply(front, settings[|settings| - 1])
  }

  /** Exactly the valid values can be built. */
  lemma BuiltExactly(o: SendOptions)
    ensures o.Valid() <==> exists settings: seq<Setting> :: Built(settings) == Ok(o)
  {
    if o.Valid() {
      var a := InFlight(o.inFlightFrames, o.inFlightBytes);
      var b := Queues(o.reliableQueueBytes, o.unreliableQueueBytes);
      var c := FlushBudget(o.flushBytes);
      var o1 := DefaultOptions().(inFlightFrames := o.inFlightFrames, inFlightBytes := o.inFlightBytes);
      BuiltSnoc([], DefaultOptions(), a);
      BuiltSnoc([a], o1, b);
      BuiltSnoc([a, b],
        o1.(reliableQueueBytes := o.reliableQueueBytes, unreliableQueueBytes := o.unreliableQueueBytes), c);
      assert [] + [a] == [a] && [a] + [b] == [a, b] && [a, b] + [c] == [a, b, c];
      assert Built([a, b, c]) == Ok(o);
    }
  }

  lemma BuiltSnoc(settings: seq<Setting>, o: SendOptions, setting: Setting)
    requires Built(settings) == Ok(o)
    ensures Built(settings + [setting]) == Apply(o, setting)
  {
    assert (settings + [setting])[..|settings|] == settings;
  }
}

/** The buffered statsd client the emitter writes to, reduced to what the
    emitter can observe: each `StatsdBuffer` records, in call order, the
    mutations it has been asked to make. Aggregation, flushing and the wire
    format belong to the statsd library and are not part of this model. */
module Statsd {
  import opened Strconv

  /** One call on a buffer: `Absolute(stat, value)` sets a gauge,
      `Incr(stat, count)` adds to a counter, `Timing(stat, delta)` records a
      timing sample in milliseconds. */
  datatype Mutation =
    | Absolute(key: string, value: int64)
    | Incr(key: string, value: int64)
    | Timing(key: string, value: int64)

  /** A `*statsd.StatsdBuffer`, bound to a client whose metric names all begin
      with `prefix`. */
  class StatsdBuffer {
    const prefix: string
    var pending: seq<Mutation>

    constructor (prefix: string)
      ensures this.prefix == prefix && pending == []
    {
      this.prefix := prefix;
      pending := [];
    }

    method Absolute(stat: string, value: int64)
      modifies this
      ensures pending == old(pending) + [Mutation.Absolute(stat, value)]
    {
      pending := pending + [Mutation.Absolute(stat, value)];
    }

    method Incr(stat: string, count: int64)
      modifies this
      ensures pending == old(pending) + [Mutation.Incr(stat, count)]
    {
      pending := pending + [Mutation.Incr(stat, count)];
    }

    method Timing(stat: string, delta: int64)
      modifies this
      ensures pending == old(pending) + [Mutation.Timing(stat, delta)]
    {
      pending := pending + [Mutation.Timing(stat, delta)];
    }
  }
}

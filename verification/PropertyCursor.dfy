/**
 The loop of `_read_headers` (faststream_mq/helpers/client.py:693-734), which walks the
 properties of a message handle with a cursor and a bounded value buffer.
 */
module PropertyCursor {
  import opened Wrappers
  import opened HeaderNames
  import opened Messages

  datatype InquireOption = InquireFirst | InquireNext | UnderCursor

  /** The outcomes of one property inquiry that the loop tells apart. */
  datatype Inquiry = Found(name: string, value: Value) | NotAvailable | TooBig(dataLength: nat) | Failed

  datatype ReadError = ReadFailed

  /** The buffer a value needs. Only text and bytes vary. */
  function ValueLength(value: Value): nat {
    match value
    case Text(t) => |t|
    case Binary(b) => |b|
    case _ => 8
  }

  /** How many of the properties need a second inquiry. */
  function Oversized(properties: Items, maxLength: int): (n: nat)
    ensures n <= |properties|
  {
    if properties == [] then 0
    else Oversized(properties[..|properties| - 1], maxLength)
         + if ValueLength(properties[|properties| - 1].1) > maxLength then 1 else 0
  }

  /**
   A message handle as the queue manager keeps it: the properties in the order they are
   listed, the property under the cursor, and the number of inquiries made so far.
   An inquiry whose number is `failsAt` ends in an unrelated error.
   */
  class MessageHandle {
    const properties: Items
    const failsAt: Option<nat>
    var cursor: int
    var inquiries: nat

    constructor (properties: Items, failsAt: Option<nat>)
      ensures this.properties == properties && this.failsAt == failsAt && cursor == -1 && inquiries == 0
    {
      this.properties, this.failsAt, cursor, inquiries := properties, failsAt, -1, 0;
    }

    function Target(option: InquireOption): int
      reads this
    {
      match option
      case InquireFirst => 0
      case InquireNext => cursor + 1
      case UnderCursor => cursor
    }

    method Get(option: InquireOption, maxLength: int) returns (answer: Inquiry)
      requires -1 <= cursor
      modifies this
      ensures inquiries == old(inquiries) + 1 && -1 <= cursor
      ensures failsAt == Some(old(inquiries)) ==> answer == Failed
      ensures failsAt != Some(old(inquiries)) ==>
        var k := old(Target(option));
        answer == if k < 0 || k >= |properties| then NotAvailable
                  else if ValueLength(properties[k].1) > maxLength then TooBig(ValueLength(properties[k].1))
                  else Found(properties[k].0, properties[k].1)
      ensures failsAt != Some(old(inquiries)) && 0 <= old(Target(option)) < |properties| ==> cursor == old(Target(option))
    {
      inquiries := inquiries + 1;
      if failsAt == Some(inquiries - 1) {
        return Failed;
      }
      var k := Target(option);
      if k < 0 || k >= |properties| {
        return NotAvailable;
      }
      cursor := k;
      var length := ValueLength(properties[k].1);
      answer := if length > maxLength then TooBig(length) else Found(properties[k].0, properties[k].1);
    }
  }

  /** Every property, one inquiry each, one more for each oversized value, and one to learn there is nothing left. */
  function InquiriesNeeded(properties: Items, maxLength: int): nat {
    |properties| + Oversized(properties, maxLength) + 1
  }

  /** What one property costs, or the news that there is none at that place. */
  function Cost(properties: Items, n: int, maxLength: int): nat {
    if 0 <= n < |properties| && ValueLength(properties[n].1) > maxLength then 2 else 1
  }

  /** One pass of the loop: the next property, asked for a second time with room enough if it is too big. */
  method ReadOne(handle: MessageHandle, options: InquireOption, maxLength: int) returns (answer: Inquiry)
    requires -1 <= handle.cursor && options != UnderCursor
    modifies handle
    ensures -1 <= handle.cursor
    ensures var n, start, cost := old(handle.Target(options)), old(handle.inquiries), Cost(handle.properties, old(handle.Target(options)), maxLength);
      && handle.inquiries <= start + cost
      && (answer.Failed? <==> handle.failsAt.Some? && start <= handle.failsAt.value < start + cost)
      && (!answer.Failed? ==>
            && handle.inquiries == start + cost
            && answer == (if n >= |handle.properties| then NotAvailable else Found(handle.properties[n].0, handle.properties[n].1))
            && (n < |handle.properties| ==> handle.cursor == n))
  {
    answer := handle.Get(options, maxLength);
    if answer.TooBig? {
      answer := handle.Get(UnderCursor, answer.dataLength);
    }
  }

  method ReadHeaders(handle: MessageHandle, maxLength: int) returns (result: Result<map<string, Value>, ReadError>)
    requires handle.inquiries == 0 && -1 <= handle.cursor
    modifies handle
    ensures handle.inquiries <= InquiriesNeeded(handle.properties, maxLength) <= 2 * |handle.properties| + 1
    ensures result.Err? <==> handle.failsAt.Some? && handle.failsAt.value < InquiriesNeeded(handle.properties, maxLength)
    ensures result.Ok? ==>
      && result.value == HeadersFrom(handle.properties)
      && handle.inquiries == InquiriesNeeded(handle.properties, maxLength)
  {
    var headers: map<string, Value> := map[];
    var options := InquireFirst;
    ghost var n := 0;
    ghost var ps := handle.properties;
    while true
      invariant 0 <= n <= |ps| && -1 <= handle.cursor
      invariant handle.Target(options) == n && options != UnderCursor
      invariant headers == HeadersFrom(ps[..n])
      invariant handle.inquiries == n + Oversized(ps[..n], maxLength)
      invariant handle.failsAt.Some? ==> handle.failsAt.value >= handle.inquiries
      decreases |ps| - n
    {
      if n < |ps| {
        OneProperty(ps, n, maxLength);
      } else {
        assert ps[..n] == ps;
      }
      var answer := ReadOne(handle, options, maxLength);
      if answer.NotAvailable? {
        break;
      }
      if answer.Failed? {
        return Err(ReadFailed);
      }
      headers := headers[HeaderName(answer.name) := answer.value];
      options := InquireNext;
      n := n + 1;
    }
    return Ok(headers);
  }

  /** What one more property adds to the headers and to the number of inquiries. */
  lemma OneProperty(ps: Items, n: nat, maxLength: int)
    requires n < |ps|
    ensures HeadersFrom(ps[..n + 1]) == HeadersFrom(ps[..n])[HeaderName(ps[n].0) := ps[n].1]
    ensures Oversized(ps[..n + 1], maxLength)
         == Oversized(ps[..n], maxLength) + if ValueLength(ps[n].1) > maxLength then 1 else 0
    ensures n + Oversized(ps[..n + 1], maxLength) < InquiriesNeeded(ps, maxLength)
  {
    assert ps[..n + 1][..n] == ps[..n];
    OversizedGrows(ps, n + 1, maxLength);
  }

  lemma {:induction false} OversizedGrows(ps: Items, n: nat, maxLength: int)
    requires n <= |ps|
    ensures Oversized(ps[..n], maxLength) <= Oversized(ps, maxLength)
  {
    if n == |ps| {
      assert ps[..n] == ps;
    } else {
      OversizedGrows(ps[..|ps| - 1], n, maxLength);
      assert ps[..|ps| - 1][..n] == ps[..n];
    }
  }
}

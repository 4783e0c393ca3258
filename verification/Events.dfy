/** Event-ring entries (spsc_entry_t in spsc_ring.h). */
module Events {

  type Byte = b: int | 0 <= b < 256

  /** `header` stands for every field the rings copy unchanged (type, ids, pointers, codes);
      `payload` is the owned buffer, empty when there is none. */
  datatype Entry = Entry(header: int, payload: seq<Byte>, dataLength: nat)

  /** An entry as the ring path of spsc_ring_push_or_overflow stores it: spsc_ring_push copies a
      payload and sets its length; without a payload the entry goes through
      spsc_ring_push_borrowed, which leaves the caller's data_length. */
  function RingForm(e: Entry): Entry {
    if e.payload != [] then e.(dataLength := |e.payload|) else e
  }

  /** An entry as an overflow node stores it: without a payload data_length is zeroed. */
  function OverflowForm(e: Entry): Entry {
    e.(dataLength := |e.payload|)
  }

  /** `out` is `arg` up to the data_length of an entry without payload. */
  predicate SameEntry(arg: Entry, out: Entry) {
    && out.header == arg.header
    && out.payload == arg.payload
    && (arg.payload != [] ==> out.dataLength == |arg.payload|)
    && (arg.payload == [] ==> out.dataLength == arg.dataLength || out.dataLength == 0)
  }
}

/** The layout of the shared segment: how the host derives it from its configuration, which headers
    a guest accepts, and that an accepted one gives every slot its own aligned memory, bounded alike
    on both sides. */
module Geometry {
  import opened Arithmetic

  const EXCHANGE_HEADER: nat := 64
  const SLOT_HEADER: nat := 128
  const MAX_SLOTS: nat := 100000
  const MAX_SLOT_SIZE: nat := 0x4000_0000

  /** Offsets of the atomics inside a slot header. */
  const STATE_AT: nat := 64
  const LEASE_AT: nat := 96
  const GEN_AT: nat := 104

  type uint32 = x: int | 0 <= x < 0x1_0000_0000

  /** The fields of the exchange header that fix the layout. */
  datatype Header = Header(numSlots: nat, numGuestSlots: nat, slotSize: nat, reqOffset: nat, respOffset: nat)

  /** One slot's memory as byte offsets from the segment's base. */
  datatype Slot = Slot(base: nat, req: nat, maxReq: nat, resp: nat, maxResp: nat)

  /** Half a slot, rounded down to whole cache lines and at least one. */
  function Half(payloadSize: uint32): nat {
    var half := payloadSize / 2 / 64 * 64;
    if half < 64 then 64 else half
  }

  /** The header the host writes. */
  function HostHeader(numSlots: uint32, numGuestSlots: uint32, payloadSize: uint32): Header {
    var half := Half(payloadSize);
    Header(numSlots, numGuestSlots, if half + half > payloadSize then half + half else payloadSize, 0, half)
  }

  /** The checks of an attaching guest, in order. */
  predicate GuestAccepts(h: Header) {
    && h.numSlots != 0 && h.numSlots <= MAX_SLOTS && h.numGuestSlots <= MAX_SLOTS
    && h.slotSize != 0 && h.slotSize <= MAX_SLOT_SIZE && h.slotSize % 8 == 0 && h.reqOffset % 8 == 0
    && h.reqOffset < h.slotSize && h.respOffset > h.reqOffset && h.respOffset < h.slotSize
  }

  function PerSlot(h: Header): nat { SLOT_HEADER + h.slotSize }

  function TotalSlots(h: Header): nat { h.numSlots + h.numGuestSlots }

  function TotalSize(h: Header): nat { EXCHANGE_HEADER + PerSlot(h) * TotalSlots(h) }

  function Base(h: Header, i: nat): nat { EXCHANGE_HEADER + i * PerSlot(h) }

  /** Slot i as the offsets describe it. */
  function SlotAt(h: Header, i: nat): Slot
    requires GuestAccepts(h)
  {
    var data := Base(h, i) + SLOT_HEADER;
    Slot(Base(h, i), data + h.reqOffset, h.respOffset - h.reqOffset, data + h.respOffset, h.slotSize - h.respOffset)
  }

  /** How a slot's payload is shared out: the request buffer is the largest whole number of cache
      lines that is at most half, and the response buffer is the rest; a payload too small for that
      is rounded up to one line each. */
  predicate SharedOut(payloadSize: uint32, s: Slot) {
    if payloadSize < 128 then s.maxReq == 64 && s.maxResp == 64
    else
      && s.maxReq % 64 == 0 && 2 * s.maxReq <= payloadSize < 2 * (s.maxReq + 64)
      && s.maxReq + s.maxResp == payloadSize
  }

  /** So the two halves differ by less than two lines, and no larger request buffer would do. */
  lemma HalvesAreEven(payloadSize: uint32, s: Slot, n: nat)
    requires SharedOut(payloadSize, s)
    ensures s.maxReq <= s.maxResp < s.maxReq + 128
    ensures payloadSize >= 128 && n % 64 == 0 && 2 * n <= payloadSize ==> n <= s.maxReq
  {
    if payloadSize >= 128 && n % 64 == 0 && 2 * n <= payloadSize {
      var a, b := n / 64, s.maxReq / 64;
      assert n == a * 64 && s.maxReq == b * 64 && a < b + 1;
    }
  }

  // ---- Both peers walk the segment ----

  /** The guest's loop over the slots. */
  method GuestSlots(h: Header) returns (slots: seq<Slot>)
    requires GuestAccepts(h)
    ensures |slots| == TotalSlots(h) && forall i :: 0 <= i < |slots| ==> slots[i] == SlotAt(h, i)
  {
    slots := [];
    var ptr := EXCHANGE_HEADER;
    while |slots| < TotalSlots(h)
      invariant |slots| <= TotalSlots(h) && ptr == Base(h, |slots|)
      invariant forall i :: 0 <= i < |slots| ==> slots[i] == SlotAt(h, i)
    {
      var data := ptr + SLOT_HEADER;
      slots := slots + [Slot(ptr, data + h.reqOffset, h.respOffset - h.reqOffset, data + h.respOffset, h.slotSize - h.respOffset)];
      ptr := ptr + PerSlot(h);
    }
  }

  /** The host's initialisation: its header and its slots. Sizes are computed in 64 bits; the slot
      count is a 32-bit sum. */
  method Init(numSlots: uint32, numGuestSlots: uint32, payloadSize: uint32) returns (h: Header, slots: seq<Slot>)
    ensures h == HostHeader(numSlots, numGuestSlots, payloadSize)
    ensures |slots| == (numSlots + numGuestSlots) % 0x1_0000_0000
    ensures GuestAccepts(h) ==> |slots| == TotalSlots(h) && forall i :: 0 <= i < |slots| ==> slots[i] == SlotAt(h, i)
    ensures forall i :: 0 <= i < |slots| ==> SharedOut(payloadSize, slots[i])
  {
    HalfBounds(payloadSize);
    var slotSize := payloadSize;
    var halfSize := slotSize / 2;
    halfSize := halfSize / 64 * 64;
    if halfSize < 64 { halfSize := 64; }
    var reqOffset, respOffset := 0, halfSize;
    if respOffset + halfSize > slotSize { slotSize := respOffset + halfSize; }
    h := Header(numSlots, numGuestSlots, slotSize, reqOffset, respOffset);
    var totalSlots := (numSlots + numGuestSlots) % 0x1_0000_0000;
    slots := [];
    var ptr := EXCHANGE_HEADER;
    while |slots| < totalSlots
      invariant |slots| <= totalSlots && ptr == Base(h, |slots|)
      invariant GuestAccepts(h) ==> forall i :: 0 <= i < |slots| ==> slots[i] == SlotAt(h, i)
      invariant forall i :: 0 <= i < |slots| ==> SharedOut(payloadSize, slots[i])
    {
      var data := ptr + SLOT_HEADER;
      slots := slots + [Slot(ptr, data + reqOffset, halfSize, data + respOffset, slotSize - respOffset)];
      ptr := ptr + SLOT_HEADER + slotSize;
    }
  }

  // ---- Acceptance ----

  lemma HalfBounds(payloadSize: uint32)
    ensures Half(payloadSize) % 64 == 0 && Half(payloadSize) >= 64
    ensures payloadSize >= 128 ==> 2 * Half(payloadSize) <= payloadSize < 2 * (Half(payloadSize) + 64)
    ensures payloadSize < 128 ==> Half(payloadSize) == 64
  {
    var q := payloadSize / 2 / 64;
    DivUnique(q * 64, q, 0, 64);
  }

  /** A host's own header is accepted exactly when the counts are in range and the payload size is
      either small enough to be rounded up to one line each way, or 8-aligned and at most 1 GiB. */
  lemma HostIsAcceptedIff(numSlots: uint32, numGuestSlots: uint32, payloadSize: uint32)
    ensures GuestAccepts(HostHeader(numSlots, numGuestSlots, payloadSize)) <==>
      && 0 < numSlots <= MAX_SLOTS && numGuestSlots <= MAX_SLOTS
      && (payloadSize < 128 || (payloadSize % 8 == 0 && payloadSize <= MAX_SLOT_SIZE))
  {
    HalfBounds(payloadSize);
  }

  /** A guest refuses a header exactly when a count or the size is out of range, a second slot or a
      request buffer would be misaligned, or a buffer would be empty or outside its slot. */
  lemma AcceptedIff(h: Header)
    ensures GuestAccepts(h) <==>
      && 0 < h.numSlots <= 100000 && h.numGuestSlots <= 100000 && 0 < h.slotSize <= 0x4000_0000
      && Base(h, 1) % 8 == 0 && (Base(h, 0) + SLOT_HEADER + h.reqOffset) % 8 == 0
      && 0 < h.respOffset - h.reqOffset && 0 < h.slotSize - h.respOffset
  {
    assert Base(h, 1) == 192 + h.slotSize && Base(h, 0) == 64;
  }

  // ---- Separation ----

  /** The two byte ranges do not meet. */
  predicate Apart(a: nat, n: nat, b: nat, m: nat) { a + n <= b || b + m <= a }

  lemma BasesAreApart(h: Header, i: nat, j: nat)
    requires i < j
    ensures Base(h, i) + PerSlot(h) <= Base(h, j)
  {
    hide PerSlot;
    MulApart(i, j, PerSlot(h));
  }

  /** Within a slot and across slots, no two of header, request buffer and response buffer meet. */
  lemma SlotsAreSeparate(h: Header, i: nat, j: nat)
    requires GuestAccepts(h)
    ensures var s, u := SlotAt(h, i), SlotAt(h, j);
      && Apart(s.base, SLOT_HEADER, u.req, u.maxReq) && Apart(s.base, SLOT_HEADER, u.resp, u.maxResp)
      && Apart(s.req, s.maxReq, u.resp, u.maxResp)
      && (i != j ==> Apart(s.base, SLOT_HEADER, u.base, SLOT_HEADER) && Apart(s.req, s.maxReq, u.req, u.maxReq)
                     && Apart(s.resp, s.maxResp, u.resp, u.maxResp))
  {
    hide PerSlot, Base, SlotAt, GuestAccepts;
    InsideSlot(h, i);
    InsideSlot(h, j);
    if i < j { BasesAreApart(h, i, j); } else if j < i { BasesAreApart(h, j, i); }
  }

  /** Every slot lies inside the mapping, after the exchange header, with room both ways, and its
      atomics and request buffer are 8-aligned. */
  lemma SlotsAreInside(h: Header, i: nat)
    requires GuestAccepts(h) && i < TotalSlots(h)
    ensures var s := SlotAt(h, i);
      && EXCHANGE_HEADER <= s.base && s.resp + s.maxResp <= TotalSize(h) && s.maxReq > 0 && s.maxResp > 0
      && (s.base + STATE_AT) % 8 == 0 && (s.base + LEASE_AT) % 8 == 0 && (s.base + GEN_AT) % 8 == 0 && s.req % 8 == 0
  {
    hide PerSlot, Base, SlotAt, TotalSize, TotalSlots;
    InsideSlot(h, i);
    BasesAreApart(h, i, TotalSlots(h));
    TotalIsBase(h);
    BaseIsAligned(h, i);
  }

  lemma InsideSlot(h: Header, i: nat)
    requires GuestAccepts(h)
    ensures var s := SlotAt(h, i);
      && s.base == Base(h, i) && s.base + SLOT_HEADER + h.reqOffset == s.req && s.maxReq > 0 && s.maxResp > 0
      && s.req + s.maxReq == s.resp && s.resp + s.maxResp == s.base + PerSlot(h)
  {
  }

  lemma TotalIsBase(h: Header)
    ensures TotalSize(h) == Base(h, TotalSlots(h))
    ensures forall i: nat :: EXCHANGE_HEADER <= Base(h, i)
  {
  }

  lemma BaseIsAligned(h: Header, i: nat)
    requires h.slotSize % 8 == 0 && h.reqOffset % 8 == 0
    ensures Base(h, i) % 8 == 0 && (Base(h, i) + SLOT_HEADER + h.reqOffset) % 8 == 0
  {
    var q := 16 + h.slotSize / 8;
    assert PerSlot(h) == q * 8;
    assert Base(h, i) == (8 + i * q) * 8;
    DivUnique(Base(h, i), 8 + i * q, 0, 8);
  }
}

// The question packets a daemon keeps: bounded in number and in bytes, oldest first.
module PacketCache {
  const MAX_PACKETS: nat := 8
  const MAX_CACHE_BYTES: nat := 8 * 1024 * 1024

  datatype Packet = Packet(id: string, body: string)
  datatype Entry = Entry(packet: Packet, bytes: nat)

  function Sum(entries: seq<Entry>): nat {
    if entries == [] then 0 else entries[0].bytes + Sum(entries[1..])
  }

  predicate Distinct(entries: seq<Entry>) {
    forall i, j | 0 <= i < j < |entries| :: entries[i].packet.id != entries[j].packet.id
  }

  function Others(entries: seq<Entry>, id: string): seq<Entry> {
    if entries == [] then []
    else if entries[0].packet.id == id then Others(entries[1..], id)
    else [entries[0]] + Others(entries[1..], id)
  }

  // One more entry of that size can be added.
  predicate Fits(entries: seq<Entry>, size: nat) {
    |entries| < MAX_PACKETS && Sum(entries) + size <= MAX_CACHE_BYTES
  }

  function LongestFitting(entries: seq<Entry>, size: nat): seq<Entry> {
    if entries == [] || Fits(entries, size) then entries else LongestFitting(entries[1..], size)
  }

  // It is the longest suffix that fits.
  lemma {:induction false} LongestSuffix(entries: seq<Entry>, size: nat)
    requires size <= MAX_CACHE_BYTES
    ensures var r := LongestFitting(entries, size);
            && |r| <= |entries| && r == entries[|entries| - |r|..] && Fits(r, size)
            && forall j | 0 <= j <= |entries| && Fits(entries[j..], size) :: |entries| - j <= |r|
  {
    if entries != [] && !Fits(entries, size) {
      LongestSuffix(entries[1..], size);
      var r := LongestFitting(entries, size);
      assert entries[1..][|entries| - 1 - |r|..] == entries[|entries| - |r|..];
      forall j | 0 <= j <= |entries| && Fits(entries[j..], size) ensures |entries| - j <= |r| {
        assert j > 0 && entries[j..] == entries[1..][j - 1..];
      }
    } else {
      assert entries[|entries| - |entries|..] == entries;
    }
  }

  lemma {:induction false} SumConcat(xs: seq<Entry>, ys: seq<Entry>)
    ensures Sum(xs + ys) == Sum(xs) + Sum(ys)
  {
    if xs == [] {
      assert xs + ys == ys;
    } else {
      assert (xs + ys)[1..] == xs[1..] + ys;
      SumConcat(xs[1..], ys);
    }
  }

  lemma SumWithout(entries: seq<Entry>, i: nat)
    requires i < |entries|
    ensures Sum(entries) == Sum(entries[..i] + entries[i + 1..]) + entries[i].bytes
  {
    assert entries == entries[..i] + ([entries[i]] + entries[i + 1..]);
    SumConcat(entries[..i], [entries[i]] + entries[i + 1..]);
    SumConcat([entries[i]], entries[i + 1..]);
    SumConcat(entries[..i], entries[i + 1..]);
    assert Sum([entries[i]]) == entries[i].bytes + Sum([entries[i]][1..]);
  }

  lemma {:induction false} OthersWithout(entries: seq<Entry>, i: nat)
    requires i < |entries|
    requires forall j | 0 <= j < |entries| && j != i :: entries[j].packet.id != entries[i].packet.id
    ensures Others(entries, entries[i].packet.id) == entries[..i] + entries[i + 1..]
  {
    var id := entries[i].packet.id;
    if i == 0 {
      OthersAll(entries[1..], id);
      assert entries[..0] + entries[1..] == entries[1..];
    } else {
      assert entries[0].packet.id != id && entries[1..][i - 1] == entries[i];
      forall j | 0 <= j < |entries[1..]| && j != i - 1 ensures entries[1..][j].packet.id != id {
        assert entries[1..][j] == entries[j + 1];
      }
      OthersWithout(entries[1..], i - 1);
      assert Others(entries, id) == [entries[0]] + Others(entries[1..], id);
      assert entries[1..][i..] == entries[i + 1..];
      assert entries[..i] == [entries[0]] + entries[1..][..i - 1];
      assert entries[..i] + entries[i + 1..] == [entries[0]] + (entries[1..][..i - 1] + entries[1..][i..]);
    }
  }

  lemma {:induction false} OthersAll(entries: seq<Entry>, id: string)
    requires forall i | 0 <= i < |entries| :: entries[i].packet.id != id
    ensures Others(entries, id) == entries
  {
    if entries != [] {
      OthersAll(entries[1..], id);
    }
  }

  class PacketCache {
    var packets: seq<Entry>
    var bytes: nat

    ghost predicate Valid()
      reads this
    {
      bytes == Sum(packets) && Distinct(packets) && |packets| <= MAX_PACKETS && bytes <= MAX_CACHE_BYTES
    }

    constructor ()
      ensures Valid() && packets == []
    {
      packets, bytes := [], 0;
    }

    // The newest packet last, after as many of the others as fit with it, newest kept. It
    // panics on a packet that is larger than the whole cache.
    method Remember(packet: Packet, size: nat) returns (panicked: bool)
      requires Valid()
      modifies this
      ensures panicked <==> size > MAX_CACHE_BYTES
      ensures !panicked ==> Valid()
      ensures !panicked ==> packets == LongestFitting(Others(old(packets), packet.id), size) + [Entry(packet, size)]
    {
      ghost var others := Others(packets, packet.id);
      Drop(packet.id);
      while |packets| >= MAX_PACKETS || bytes + size > MAX_CACHE_BYTES
        invariant bytes == Sum(packets) && |packets| <= MAX_PACKETS
        invariant LongestFitting(packets, size) == LongestFitting(others, size)
        invariant Distinct(packets) && forall j | 0 <= j < |packets| :: packets[j].packet.id != packet.id
        decreases |packets|
      {
        if packets == [] {
          return true;
        }
        bytes := bytes - packets[0].bytes;
        packets := packets[1..];
      }
      SumConcat(packets, [Entry(packet, size)]);
      bytes := bytes + size;
      packets := packets + [Entry(packet, size)];
      return false;
    }

    method Drop(id: string)
      requires Valid()
      modifies this
      ensures Valid() && packets == Others(old(packets), id)
      ensures forall j | 0 <= j < |packets| :: packets[j].packet.id != id
    {
      var i := 0;
      while i < |packets| && packets[i].packet.id != id
        invariant i <= |packets| && forall j | 0 <= j < i :: packets[j].packet.id != id
      {
        i := i + 1;
      }
      if i < |packets| {
        OthersWithout(packets, i);
        SumWithout(packets, i);
        bytes := bytes - packets[i].bytes;
        packets := packets[..i] + packets[i + 1..];
      } else {
        OthersAll(packets, id);
      }
    }

    // A response that cannot be finished leaves the cache exactly as it was.
    method RememberFenced(packet: Packet, size: nat) returns (finished: bool)
      requires Valid() && size <= MAX_CACHE_BYTES
      modifies this
      ensures Valid()
      ensures finished ==> packets == LongestFitting(Others(old(packets), packet.id), size) + [Entry(packet, size)]
      ensures !finished ==> packets == old(packets) && bytes == old(bytes)
    {
      var priorPackets, priorBytes := packets, bytes;
      var panicked := Remember(packet, size);
      finished := *;
      if !finished {
        packets, bytes := priorPackets, priorBytes;
      }
    }
  }
}

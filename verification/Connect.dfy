/** connect_to and ConnectTo: the loop over the addresses a name resolves to. */
module Connect {

  /** What socket and connect answer for one address; socket answers -1 or a descriptor that is not open. */
  datatype Address = Address(socket: int, connects: bool)

  datatype Call = Opened(fd: int) | Closed(fd: int)

  predicate Works(a: Address) {
    a.socket != -1 && a.connects
  }

  /** The descriptors open after these calls, or none if one closes what is not open or opens what is. */
  datatype Descriptors = Open(fds: set<int>) | Broken

  function OpenAfter(fds: set<int>, calls: seq<Call>): Descriptors {
    if calls == [] then Open(fds)
    else
      var d := OpenAfter(fds, calls[..|calls| - 1]);
      if d.Broken? then Broken else
      match calls[|calls| - 1]
      case Opened(fd) => if fd in d.fds then Broken else Open(d.fds + {fd})
      case Closed(fd) => if fd in d.fds then Open(d.fds - {fd}) else Broken
  }

  /** As many closes as opens, for each descriptor. */
  ghost predicate Balanced(calls: seq<Call>) {
    forall fd :: multiset(calls)[Opened(fd)] == multiset(calls)[Closed(fd)]
  }

  lemma OpenAndClose(fds: set<int>, calls: seq<Call>, fd: int)
    requires OpenAfter(fds, calls) == Open(fds) && fd !in fds && Balanced(calls)
    ensures OpenAfter(fds, calls + [Opened(fd)]) == Open(fds + {fd})
    ensures OpenAfter(fds, calls + [Opened(fd), Closed(fd)]) == Open(fds)
    ensures Balanced(calls + [Opened(fd), Closed(fd)])
  {
    var one, two := calls + [Opened(fd)], calls + [Opened(fd), Closed(fd)];
    assert one[..|calls|] == calls;
    assert two[..|one|] == one;
    assert fds + {fd} - {fd} == fds;
  }

  /** The first address from which on both calls succeed, or the number of addresses. */
  function FirstWorking(addresses: seq<Address>): nat {
    if addresses == [] || Works(addresses[0]) then 0 else 1 + FirstWorking(addresses[1..])
  }

  lemma {:induction false} FirstWorkingIsFirst(addresses: seq<Address>)
    ensures FirstWorking(addresses) <= |addresses|
    ensures forall j :: 0 <= j < FirstWorking(addresses) ==> !Works(addresses[j])
    ensures FirstWorking(addresses) < |addresses| ==> Works(addresses[FirstWorking(addresses)])
    decreases |addresses|
  {
    if addresses != [] && !Works(addresses[0]) {
      FirstWorkingIsFirst(addresses[1..]);
    }
  }

  /** Connecting returns the descriptor of the first address for which both calls succeed, or -1 if there is
      none.  Whatever was open before stays open, the returned descriptor is open, and on the way to it every
      other descriptor was closed as often as it was opened. */
  method ConnectTo(addresses: seq<Address>, ghost before: set<int>) returns (sfd: int, calls: seq<Call>)
    requires forall a :: a in addresses ==> a.socket >= -1 && a.socket !in before
    ensures
      var k := FirstWorking(addresses);
      sfd == if k < |addresses| then addresses[k].socket else -1
    ensures sfd == -1 <==> forall a :: a in addresses ==> a.socket == -1 || !a.connects
    ensures sfd != -1 ==>
      exists k :: 0 <= k < |addresses| && addresses[k].socket == sfd && addresses[k].connects &&
        forall j :: 0 <= j < k ==> addresses[j].socket == -1 || !addresses[j].connects
    ensures OpenAfter(before, calls) == Open(before + if sfd == -1 then {} else {sfd})
    ensures if sfd == -1 then Balanced(calls)
            else |calls| > 0 && Balanced(calls[..|calls| - 1]) && calls[|calls| - 1] == Opened(sfd)
  {
    FirstWorkingIsFirst(addresses);
    calls := [];
    sfd := -1;
    var rp := 0;
    while rp < |addresses|
      invariant 0 <= rp <= |addresses|
      invariant forall j :: 0 <= j < rp ==> !Works(addresses[j])
      invariant OpenAfter(before, calls) == Open(before) && Balanced(calls)
    {
      sfd := addresses[rp].socket;
      if sfd == -1 {
        rp := rp + 1;
        continue;
      }
      OpenAndClose(before, calls, sfd);
      if addresses[rp].connects {
        assert Works(addresses[rp]) && rp == FirstWorking(addresses);
        calls := calls + [Opened(sfd)];
        return;
      }
      calls := calls + [Opened(sfd), Closed(sfd)];
      rp := rp + 1;
    }
    sfd := -1;
    assert before + {} == before;
  }
}

/**
  What Epoll keeps track of, as a value: the channels, the map from descriptors to channels, and the kernel's
  interest list.  Channels are named by any type with equality; the class below uses the objects themselves.
*/
module EpollState {
  /** poll(2) event bits. */
  type Events = bv16
  const POLLIN: Events := 0x0001
  const POLLPRI: Events := 0x0002
  const POLLOUT: Events := 0x0004
  const NONE_EVENT: Events := 0
  const READ_EVENT: Events := POLLIN | POLLPRI
  const WRITE_EVENT: Events := POLLOUT

  datatype EventState = NEW | ADDED | DELETED
  datatype Channel = Channel(fd: int, requested: Events, state: EventState)
  datatype Interest<C> = Interest(events: Events, channel: C)
  datatype Selector<C> = Selector(channels: map<C, Channel>, channelMap: map<int, C>, kernel: map<int, Interest<C>>)

  datatype Control = Add | Mod | Del

  /** A failed assertion, a request that epoll_ctl refuses, or the next state. */
  datatype Outcome<C> = Asserts | Refused | Fine(next: Selector<C>)

  /** epoll_ctl: ADD needs an absent descriptor, MOD and DEL a present one. */
  predicate Legal<C>(kernel: map<int, Interest<C>>, control: Control, fd: int) {
    control.Add? <==> fd !in kernel
  }

  function Interested<C>(kernel: map<int, Interest<C>>, control: Control, fd: int, interest: Interest<C>)
    : map<int, Interest<C>>
  {
    if control.Del? then kernel - {fd} else kernel[fd := interest]
  }

  /** Epoll::update. */
  function EpollControl<C(==)>(s: Selector<C>, c: C, control: Control): Outcome<C>
    requires c in s.channels
  {
    var ch := s.channels[c];
    if Legal(s.kernel, control, ch.fd)
    then Fine(s.(kernel := Interested(s.kernel, control, ch.fd, Interest(ch.requested, c))))
    else Refused
  }

  function WithState<C(==)>(s: Selector<C>, c: C, state: EventState): Selector<C>
    requires c in s.channels
  {
    s.(channels := s.channels[c := s.channels[c].(state := state)])
  }

  /** The channel is the one its descriptor is mapped to. */
  predicate Mapped<C(==)>(s: Selector<C>, c: C)
    requires c in s.channels
  {
    s.channels[c].fd in s.channelMap && s.channelMap[s.channels[c].fd] == c
  }

  /** Epoll::updateChannel. */
  function UpdateChannel<C(==)>(s: Selector<C>, c: C): Outcome<C>
    requires c in s.channels
  {
    var ch := s.channels[c];
    match ch.state
    case NEW =>
      if ch.fd in s.channelMap then Asserts
      else EpollControl(WithState(s.(channelMap := s.channelMap[ch.fd := c]), c, ADDED), c, Add)
    case ADDED =>
      if !Mapped(s, c) then Asserts
      else if ch.requested == NONE_EVENT then EpollControl(WithState(s, c, DELETED), c, Del)
      else EpollControl(s, c, Mod)
    case DELETED =>
      if !Mapped(s, c) then Asserts
      else EpollControl(WithState(s, c, ADDED), c, Add)
  }

  /** Epoll::removeChannel. */
  function RemoveChannel<C(==)>(s: Selector<C>, c: C): Outcome<C>
    requires c in s.channels
  {
    var ch := s.channels[c];
    var erased := s.(channelMap := s.channelMap - {ch.fd});
    var o := if ch.state.ADDED? then EpollControl(erased, c, Del) else Fine(erased);
    if o.Fine? then Fine(WithState(o.next, c, NEW)) else o
  }

  /** Channel's mask updates, each followed by an update of the selector. */
  datatype Mask = EnableRead | DisableRead | EnableWrite | DisableWrite | DisableAll

  function Masked(requested: Events, mask: Mask): Events {
    match mask
    case EnableRead => requested | READ_EVENT
    case DisableRead => requested & !READ_EVENT
    case EnableWrite => requested | WRITE_EVENT
    case DisableWrite => requested & !WRITE_EVENT
    case DisableAll => NONE_EVENT
  }

  predicate Writeable(requested: Events) { requested & WRITE_EVENT != 0 }
  predicate Readable(requested: Events) { requested & READ_EVENT != 0 }

  /** Each update sets or clears its own interest and leaves the other one alone. */
  lemma ReadMaskIsIndependent(r: Events)
    ensures Readable(Masked(r, EnableRead)) && !Readable(Masked(r, DisableRead))
    ensures Writeable(Masked(r, EnableRead)) == Writeable(Masked(r, DisableRead)) == Writeable(r)
  {
  }

  lemma WriteMaskIsIndependent(r: Events)
    ensures Writeable(Masked(r, EnableWrite)) && !Writeable(Masked(r, DisableWrite))
    ensures Readable(Masked(r, EnableWrite)) == Readable(Masked(r, DisableWrite)) == Readable(r)
  {
  }

  function SetMask<C(==)>(s: Selector<C>, c: C, mask: Mask): Selector<C>
    requires c in s.channels
  {
    s.(channels := s.channels[c := s.channels[c].(requested := Masked(s.channels[c].requested, mask))])
  }

  datatype Op<C> = Open(c: C, fd: int) | Change(c: C, mask: Mask) | Remove(c: C) | Destroy(c: C)

  /** An operation on a channel that exists, or the construction of one that does not. */
  predicate Possible<C(==)>(s: Selector<C>, op: Op<C>) {
    op.Open? <==> op.c !in s.channels
  }

  function Step<C(==)>(s: Selector<C>, op: Op<C>): Outcome<C>
    requires Possible(s, op)
  {
    match op
    case Open(c, fd) => Fine(s.(channels := s.channels[c := Channel(fd, NONE_EVENT, NEW)]))
    case Change(c, mask) => UpdateChannel(SetMask(s, c, mask), c)
    case Remove(c) => RemoveChannel(s, c)
    case Destroy(c) => Fine(s.(channels := s.channels - {c}))
  }

  /** The three views agree. */
  predicate Agree<C(==)>(s: Selector<C>) {
    && (forall fd <- s.channelMap :: s.channelMap[fd] in s.channels && s.channels[s.channelMap[fd]].fd == fd)
    && (forall c <- s.channels :: !s.channels[c].state.NEW? <==> Mapped(s, c))
    && (forall c <- s.channels :: s.channels[c].state.ADDED? ==>
          s.channels[c].fd in s.kernel && s.kernel[s.channels[c].fd] == Interest(s.channels[c].requested, c))
    && (forall fd <- s.kernel ::
          fd in s.channelMap && s.channelMap[fd] in s.channels && s.channels[s.channelMap[fd]].state.ADDED?)
    && (forall c <- s.channels :: s.channels[c].state.DELETED? ==> s.channels[c].requested == NONE_EVENT)
  }

  /** The operation would register or remove an unregistered channel whose descriptor another channel holds. */
  predicate Collides<C(==)>(s: Selector<C>, op: Op<C>)
    requires Possible(s, op)
  {
    (op.Change? || op.Remove?) && s.channels[op.c].state.NEW? && s.channels[op.c].fd in s.channelMap
  }

  /** The operation would destroy a channel that has not been removed. */
  predicate Dangles<C(==)>(s: Selector<C>, op: Op<C>)
    requires Possible(s, op)
  {
    op.Destroy? && !s.channels[op.c].state.NEW?
  }

  predicate Careful<C(==)>(s: Selector<C>, op: Op<C>) {
    Possible(s, op) && !Collides(s, op) && !Dangles(s, op)
  }

  /** Every careful operation passes the assertions, issues a legal epoll_ctl and keeps the
      agreement, whatever its channel's state. */
  lemma StepAgrees<C>(s: Selector<C>, op: Op<C>)
    requires Agree(s) && Careful(s, op)
    ensures Step(s, op).Fine? && Agree(Step(s, op).next)
  {
    match op
    case Open(c, fd) =>
    case Change(c, mask) => UpdateAgrees(s, c, Masked(s.channels[c].requested, mask));
    case Remove(c) => RemoveAgrees(s, c);
    case Destroy(c) => DestroyAgreesIff(s, c);
  }

  /** Destroying a channel keeps the agreement exactly if it has been removed. */
  lemma DestroyAgreesIff<C>(s: Selector<C>, c: C)
    requires Agree(s) && c in s.channels
    ensures Agree(Step(s, Destroy(c)).next) <==> s.channels[c].state.NEW?
  {
    var t := Step(s, Destroy(c)).next;
    if s.channels[c].state.NEW? {
      assert forall fd <- s.channelMap :: Mapped(s, s.channelMap[fd]) && s.channelMap[fd] != c;
      assert forall d <- t.channels :: t.channels[d] == s.channels[d] && (Mapped(t, d) <==> Mapped(s, d));
      assert forall fd <- t.kernel :: fd in t.channelMap && t.channelMap[fd] in t.channels;
    } else {
      assert Mapped(s, c) && s.channelMap[s.channels[c].fd] == c;
      assert s.channels[c].fd in t.channelMap && t.channelMap[s.channels[c].fd] !in t.channels;
    }
  }

  lemma UpdateAgrees<C>(s: Selector<C>, c: C, requested: Events)
    requires Agree(s) && c in s.channels
    requires !(s.channels[c].state.NEW? && s.channels[c].fd in s.channelMap)
    ensures var t := s.(channels := s.channels[c := s.channels[c].(requested := requested)]);
            UpdateChannel(t, c).Fine? && Agree(UpdateChannel(t, c).next)
  {
    if s.channels[c].state.ADDED? {
      UpdateAddedAgrees(s, c, requested);
    } else {
      EnrollAgrees(s, c, requested);
    }
  }

  lemma UpdateAddedAgrees<C>(s: Selector<C>, c: C, requested: Events)
    requires Agree(s) && c in s.channels && s.channels[c].state.ADDED?
    ensures var t := s.(channels := s.channels[c := s.channels[c].(requested := requested)]);
            UpdateChannel(t, c).Fine? && Agree(UpdateChannel(t, c).next)
  {
  }

  lemma EnrollAgrees<C>(s: Selector<C>, c: C, requested: Events)
    requires Agree(s) && c in s.channels && !s.channels[c].state.ADDED?
    requires !(s.channels[c].state.NEW? && s.channels[c].fd in s.channelMap)
    ensures var t := s.(channels := s.channels[c := s.channels[c].(requested := requested)]);
            UpdateChannel(t, c).Fine? && Agree(UpdateChannel(t, c).next)
  {
  }

  lemma RemoveAgrees<C>(s: Selector<C>, c: C)
    requires Agree(s) && c in s.channels && !(s.channels[c].state.NEW? && s.channels[c].fd in s.channelMap)
    ensures RemoveChannel(s, c).Fine? && Agree(RemoveChannel(s, c).next)
  {
  }

  /** A colliding update fails its assertion. */
  lemma CollidingUpdateAsserts<C>(s: Selector<C>, c: C, mask: Mask)
    requires Agree(s) && c in s.channels
    ensures Step(s, Change(c, mask)).Asserts? <==> Collides(s, Change(c, mask))
    ensures !Step(s, Change(c, mask)).Refused?
  {
  }

  /** A colliding removal passes silently and destroys the agreement: it takes the other channel's descriptor
      out of the map while that channel stays registered. */
  lemma RemovalAgreesIff<C>(s: Selector<C>, c: C)
    requires Agree(s) && c in s.channels
    ensures Step(s, Remove(c)).Fine?
    ensures Agree(Step(s, Remove(c)).next) <==> !Collides(s, Remove(c))
  {
    if Collides(s, Remove(c)) {
      var fd := s.channels[c].fd;
      var other := s.channelMap[fd];
      var t := Step(s, Remove(c)).next;
      assert other in t.channels && t.channels[other] == s.channels[other] && !Mapped(t, other);
    } else {
      StepAgrees(s, Remove(c));
    }
  }

  /** Two channels on one descriptor, the second never registered: removing it breaks the first. */
  lemma RemovalOfUnregisteredTwin(fd: int)
    ensures var s := Selector(map[0 := Channel(fd, READ_EVENT, ADDED), 1 := Channel(fd, NONE_EVENT, NEW)],
                              map[fd := 0], map[fd := Interest(READ_EVENT, 0)]);
            Agree(s) && Step(s, Remove(1)).Fine? && !Agree(Step(s, Remove(1)).next)
  {
  }

  /** A run of careful operations. */
  ghost predicate AllCareful<C>(s: Selector<C>, ops: seq<Op<C>>)
    decreases |ops|
  {
    ops == [] ||
    (Careful(s, ops[0]) && (Step(s, ops[0]).Fine? ==> AllCareful(Step(s, ops[0]).next, ops[1..])))
  }

  function Run<C(==)>(s: Selector<C>, ops: seq<Op<C>>): Outcome<C>
    requires AllCareful(s, ops)
    decreases |ops|
  {
    if ops == [] then Fine(s)
    else var o := Step(s, ops[0]); if o.Fine? then Run(o.next, ops[1..]) else o
  }

  /** No careful run ever fails an assertion or is refused by the kernel, and it ends in agreement. */
  lemma {:induction false} RunAgrees<C>(s: Selector<C>, ops: seq<Op<C>>)
    requires Agree(s) && AllCareful(s, ops)
    ensures Run(s, ops).Fine? && Agree(Run(s, ops).next)
    decreases |ops|
  {
    if ops != [] {
      StepAgrees(s, ops[0]);
      RunAgrees(Step(s, ops[0]).next, ops[1..]);
    }
  }

  /* ---------------------------------- what the kernel is asked for ---------------------------------- */

  /** The bits that are asked for after an update: POLLIN and POLLPRI are 0x0003, POLLOUT is 0x0004. */
  function Bits(r: Events, mask: Mask): Events {
    match mask
    case EnableRead => r | 0x0003
    case DisableRead => r & 0xFFFC
    case EnableWrite => r | 0x0004
    case DisableWrite => r & 0xFFFB
    case DisableAll => 0x0000
  }

  lemma EnableReadBits(r: Events)
    ensures Masked(r, EnableRead) == Bits(r, EnableRead)
  {
  }

  lemma DisableReadBits(r: Events)
    ensures Masked(r, DisableRead) == Bits(r, DisableRead)
  {
  }

  lemma EnableWriteBits(r: Events)
    ensures Masked(r, EnableWrite) == Bits(r, EnableWrite)
  {
  }

  lemma DisableWriteBits(r: Events)
    ensures Masked(r, DisableWrite) == Bits(r, DisableWrite)
  {
  }

  lemma DisableAllBits(r: Events)
    ensures Masked(r, DisableAll) == Bits(r, DisableAll)
  {
  }

  lemma MaskedIsBits(r: Events, mask: Mask)
    ensures Masked(r, mask) == Bits(r, mask)
  {
    hide Masked, Bits;
    match mask
    case EnableRead => EnableReadBits(r);
    case DisableRead => DisableReadBits(r);
    case EnableWrite => EnableWriteBits(r);
    case DisableWrite => DisableWriteBits(r);
    case DisableAll => DisableAllBits(r);
  }

  /** A careful update puts these bits into the kernel's list, or takes the descriptor out of it when a registered
      channel asks for nothing any more; no other channel and no other descriptor changes. */
  lemma UpdateAsks<C>(s: Selector<C>, c: C, mask: Mask)
    requires Agree(s) && Careful(s, Change(c, mask)) && Step(s, Change(c, mask)).Fine?
    ensures var t, ch := Step(s, Change(c, mask)).next, s.channels[c];
            var bits := Bits(ch.requested, mask);
            var out := ch.state.ADDED? && bits == 0x0000;
            && t.channels == s.channels[c := Channel(ch.fd, bits, if out then DELETED else ADDED)]
            && t.channelMap == s.channelMap[ch.fd := c]
            && t.kernel == if out then s.kernel - {ch.fd} else s.kernel[ch.fd := Interest(bits, c)]
  {
    hide Masked, Bits, UpdateChannel, NONE_EVENT;
    var ch := s.channels[c];
    MaskedIsBits(ch.requested, mask);
    UpdateShape(SetMask(s, c, mask), c);
    if !ch.state.NEW? {
      assert Mapped(s, c);
      assert s.channelMap[ch.fd := c] == s.channelMap;
    }
  }

  lemma UpdateShape<C>(s: Selector<C>, c: C)
    requires c in s.channels && UpdateChannel(s, c).Fine?
    ensures var t, ch := UpdateChannel(s, c).next, s.channels[c];
            var out := ch.state.ADDED? && ch.requested == 0x0000;
            && t.channels == s.channels[c := ch.(state := if out then DELETED else ADDED)]
            && t.channelMap == (if ch.state.NEW? then s.channelMap[ch.fd := c] else s.channelMap)
            && t.kernel == if out then s.kernel - {ch.fd} else s.kernel[ch.fd := Interest(ch.requested, c)]
  {
    match s.channels[c].state
    case NEW =>
    case ADDED => assert s.channels[c := s.channels[c]] == s.channels;
    case DELETED =>
  }

  /** A careful removal takes the descriptor out of the map and out of the kernel's list. */
  lemma RemovalForgets<C>(s: Selector<C>, c: C)
    requires Agree(s) && Careful(s, Remove(c)) && Step(s, Remove(c)).Fine?
    ensures var t, ch := Step(s, Remove(c)).next, s.channels[c];
            && t.channels == s.channels[c := Channel(ch.fd, ch.requested, NEW)]
            && t.channelMap == s.channelMap - {ch.fd} && t.kernel == s.kernel - {ch.fd}
  {
    if !s.channels[c].state.ADDED? {
      assert s.channels[c].state.DELETED? ==> Mapped(s, c);
      assert s.channels[c].fd !in s.kernel;
      assert s.kernel - {s.channels[c].fd} == s.kernel;
    }
  }

  /** The assertions of an update, whatever has happened before. */
  lemma UpdateAssertsIff<C>(s: Selector<C>, c: C)
    requires c in s.channels
    ensures UpdateChannel(s, c).Asserts? <==>
              if s.channels[c].state.NEW? then s.channels[c].fd in s.channelMap
              else !(s.channels[c].fd in s.channelMap && s.channelMap[s.channels[c].fd] == c)
  {
  }

  /** The bits that a channel asks for after some operations, if it asked for `r` before. */
  function Asked<C(==)>(r: Events, ops: seq<Op<C>>, c: C): Events
    decreases |ops|
  {
    if ops == [] then r
    else Asked(if ops[0].Change? && ops[0].c == c then Bits(r, ops[0].mask)
               else if ops[0].Open? && ops[0].c == c then 0x0000
               else r, ops[1..], c)
  }

  /** Over any careful run the kernel's list has exactly the bits that the updates of the channel add up to. */
  lemma {:induction false} KernelHasAsked<C>(s: Selector<C>, ops: seq<Op<C>>, c: C, r: Events)
    requires Agree(s) && AllCareful(s, ops) && (c in s.channels ==> s.channels[c].requested == r)
    ensures Run(s, ops).Fine?
    ensures var t := Run(s, ops).next;
            c in t.channels ==>
              && t.channels[c].requested == Asked(r, ops, c)
              && (t.channels[c].state.ADDED? ==>
                    t.channels[c].fd in t.kernel && t.kernel[t.channels[c].fd] == Interest(Asked(r, ops, c), c))
    decreases |ops|
  {
    if ops != [] {
      var op := ops[0];
      StepAgrees(s, op);
      StepAsks(s, op, c, r);
      hide Agree, Step, Careful, Bits;
      KernelHasAsked(Step(s, op).next, ops[1..], c, Asked(r, [op], c));
      assert Asked(r, ops, c) == Asked(Asked(r, [op], c), ops[1..], c) by { assert [op][1..] == []; }
    }
  }

  lemma StepAsks<C>(s: Selector<C>, op: Op<C>, c: C, r: Events)
    requires Agree(s) && Careful(s, op) && Step(s, op).Fine? && (c in s.channels ==> s.channels[c].requested == r)
    ensures c in Step(s, op).next.channels ==> Step(s, op).next.channels[c].requested == Asked(r, [op], c)
  {
    assert [op][1..] == [];
    match op
    case Open(_, _) =>
    case Change(d, mask) =>
      UpdateAsks(s, d, mask);
      hide Agree, Careful, UpdateChannel, Bits;
    case Remove(d) =>
      RemovalForgets(s, d);
      hide Agree, Careful, RemoveChannel;
    case Destroy(_) =>
  }

  /** `newest` names for each descriptor the channel that was constructed last; registered channels are among them. */
  predicate Latest<C(==)>(s: Selector<C>, newest: map<int, C>) {
    forall fd <- s.channelMap :: fd in newest && newest[fd] == s.channelMap[fd]
  }

  function Renewed<C>(newest: map<int, C>, op: Op<C>): map<int, C> {
    if op.Open? then newest[op.fd := op.c] else newest
  }

  /** A channel is constructed on a descriptor on which none is registered, used while it is the newest one there, and
      destroyed after it has been removed.  An older channel on the descriptor may still exist by then, and the
      descriptor may be used again. */
  predicate Orderly<C(==)>(s: Selector<C>, newest: map<int, C>, op: Op<C>) {
    && Possible(s, op)
    && (op.Open? ==> op.fd !in s.channelMap)
    && (op.Change? || op.Remove? ==> s.channels[op.c].fd in newest && newest[s.channels[op.c].fd] == op.c)
    && !Dangles(s, op)
  }

  lemma OrderlyIsCareful<C>(s: Selector<C>, newest: map<int, C>, op: Op<C>)
    requires Agree(s) && Latest(s, newest) && Orderly(s, newest, op)
    ensures Careful(s, op) && Step(s, op).Fine? && Latest(Step(s, op).next, Renewed(newest, op))
  {
    if op.Change? || op.Remove? {
      assert s.channels[op.c].fd in s.channelMap ==> Mapped(s, op.c);
    }
    assert !Collides(s, op);
    StepAgrees(s, op);
    hide Agree;
  }

  ghost predicate AllOrderly<C>(s: Selector<C>, newest: map<int, C>, ops: seq<Op<C>>)
    decreases |ops|
  {
    ops == [] ||
    (&& Orderly(s, newest, ops[0])
     && (Step(s, ops[0]).Fine? ==> AllOrderly(Step(s, ops[0]).next, Renewed(newest, ops[0]), ops[1..])))
  }

  /** So do all runs in which channels come and go in that way. */
  lemma {:induction false} OrderlyRunsAgree<C>(s: Selector<C>, newest: map<int, C>, ops: seq<Op<C>>)
    requires Agree(s) && Latest(s, newest) && AllOrderly(s, newest, ops)
    ensures AllCareful(s, ops) && Run(s, ops).Fine? && Agree(Run(s, ops).next)
    decreases |ops|
  {
    if ops != [] {
      OrderlyIsCareful(s, newest, ops[0]);
      StepAgrees(s, ops[0]);
      hide Agree, Step, Latest, Orderly, Careful, Renewed;
      OrderlyRunsAgree(Step(s, ops[0]).next, Renewed(newest, ops[0]), ops[1..]);
    }
  }

  /** The hand-over of a descriptor is one of them: `d` is constructed and registered on it after `c` has been removed
      and before `c` is destroyed. */
  lemma HandOverIsOrderly<C>(s: Selector<C>, newest: map<int, C>, c: C, d: C, mask: Mask)
    requires Agree(s) && Latest(s, newest) && c in s.channels && d !in s.channels && !s.channels[c].state.NEW?
    ensures AllOrderly(s, newest, [Remove(c), Open(d, s.channels[c].fd), Change(d, mask), Destroy(c)])
  {
    var fd := s.channels[c].fd;
    var ops := [Remove(c), Open(d, fd), Change(d, mask), Destroy(c)];
    assert Mapped(s, c);
    StepAgrees(s, Remove(c));
    var removed := Step(s, Remove(c)).next;
    assert removed.channels[c].state.NEW? && removed.channels[c].fd == fd && fd !in removed.channelMap;
    NewcomerIsOrderly(removed, newest, c, d, mask);
    hide Agree, Step, Latest;
    assert ops[1..] == [Open(d, fd), Change(d, mask), Destroy(c)];
  }

  /** Registering the new channel leaves the old one alone. */
  lemma NewcomerSteps<C>(s: Selector<C>, c: C, d: C, mask: Mask)
    requires Agree(s) && c in s.channels && d !in s.channels
    requires s.channels[c].state.NEW? && s.channels[c].fd !in s.channelMap
    ensures Careful(s, Open(d, s.channels[c].fd))
    ensures var opening := Step(s, Open(d, s.channels[c].fd)).next;
            && Agree(opening) && d in opening.channels && opening.channels[d].fd == s.channels[c].fd
            && Careful(opening, Change(d, mask))
            && var used := Step(opening, Change(d, mask)).next;
            Agree(used) && c in used.channels && used.channels[c].state.NEW?
  {
    StepAgrees(s, Open(d, s.channels[c].fd));
    StepAgrees(Step(s, Open(d, s.channels[c].fd)).next, Change(d, mask));
    hide Agree;
  }

  lemma NewcomerIsOrderly<C>(s: Selector<C>, newest: map<int, C>, c: C, d: C, mask: Mask)
    requires Agree(s) && c in s.channels && d !in s.channels
    requires s.channels[c].state.NEW? && s.channels[c].fd !in s.channelMap
    ensures AllOrderly(s, newest, [Open(d, s.channels[c].fd), Change(d, mask), Destroy(c)])
  {
    var fd := s.channels[c].fd;
    var ops := [Open(d, fd), Change(d, mask), Destroy(c)];
    NewcomerSteps(s, c, d, mask);
    var opening := Step(s, Open(d, fd)).next;
    var used := Step(opening, Change(d, mask)).next;
    hide Agree, Step, Latest;
    assert ops[2..][1..] == [] && ops[1..][1..] == ops[2..];
    assert AllOrderly(used, newest[fd := d], ops[2..]);
    assert AllOrderly(opening, newest[fd := d], ops[1..]);
  }

  /** Whatever the kernel reports names a registered channel on that descriptor: the assertions of select. */
  lemma ReportedIsMapped<C>(s: Selector<C>, fd: int)
    requires Agree(s) && fd in s.kernel
    ensures var c := s.kernel[fd].channel;
            c in s.channels && s.channels[c].fd == fd && s.channels[c].state.ADDED? && Mapped(s, c)
  {
  }

  /** disableAll on a channel that is already out of the kernel puts it back with an empty mask; doing it once
      more takes it out again. */
  lemma DisableAllTogglesDeleted<C>(s: Selector<C>, c: C)
    requires Agree(s) && c in s.channels && s.channels[c].state.DELETED?
    ensures var t := Step(s, Change(c, DisableAll));
            t.Fine? && s.channels[c].fd !in s.kernel && s.channels[c].fd in t.next.kernel
            && t.next.kernel[s.channels[c].fd] == Interest(NONE_EVENT, c)
            && Step(t.next, Change(c, DisableAll)) == Fine(s)
  {
  }
}

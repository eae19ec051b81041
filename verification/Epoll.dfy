/**
  Epoll and Channel as objects.  The descriptor of a channel never changes; its mask and state do, and every
  mask update tells the selector.  The kernel's interest list is ghost: it is only ever changed by a legal
  epoll_ctl.
*/
module Epolls {
  import opened EpollState

  const INIT_EVENT_VECTOR_SIZE: nat := 16

  class Channel {
    const epoll: Epoll
    const fd: int
    var requestedEvents: Events
    var returnedEvents: Events
    var eventState: EventState

    ghost function View(): EpollState.Channel
      reads this
    {
      EpollState.Channel(fd, requestedEvents, eventState)
    }

    constructor (epoll: Epoll, fd: int)
      requires epoll.Valid()
      modifies epoll`channels
      ensures epoll.Valid() && this !in old(epoll.channels) && epoll.channels == old(epoll.channels) + {this}
      ensures Step(old(epoll.View()), Open(this, fd)) == Fine(epoll.View())
    {
      this.epoll := epoll;
      this.fd := fd;
      requestedEvents := NONE_EVENT;
      returnedEvents := NONE_EVENT;
      eventState := NEW;
      new;
      StepAgrees(old(epoll.View()), Open(this, fd));
      epoll.channels := epoll.channels + {this};
      assert epoll.View() == Step(old(epoll.View()), Open(this, fd)).next;
    }

    function IsNoEvent(): bool
      reads this
    {
      requestedEvents == NONE_EVENT
    }

    /** The kernel has what the channel asks for, if the channel is in its list. */
    ghost predicate Registered()
      reads this, epoll
    {
      && epoll.channelMap.Keys >= {fd} && epoll.channelMap[fd] == this
      && if eventState == ADDED then fd in epoll.kernel && epoll.kernel[fd] == Interest(requestedEvents, this)
         else eventState == DELETED && fd !in epoll.kernel && requestedEvents == 0x0000
    }

    /** A new mask is all that changed. */
    twostate lemma MaskIsSet(mask: Mask)
      requires this in old(epoll.channels) && epoll.channels == old(epoll.channels)
      requires requestedEvents == Masked(old(requestedEvents), mask) && eventState == old(eventState)
      requires forall c <- epoll.channels :: c == this || c.View() == old(c.View())
      requires epoll.channelMap == old(epoll.channelMap) && epoll.kernel == old(epoll.kernel)
      ensures epoll.View() == SetMask(old(epoll.View()), this, mask)
    {
    }

    /** Channel::update, after the mask of the channel changed from the one in `before`. */
    method Update(ghost before: Selector<Channel>, ghost mask: Mask)
      requires epoll.Typed() && Agree(before) && this in epoll.channels && this in before.channels
      requires epoll.View() == SetMask(before, this, mask) && Careful(before, Change(this, mask))
      modifies this, epoll
      ensures epoll.Valid() && epoll.channels == old(epoll.channels)
      ensures Step(before, Change(this, mask)) == Fine(epoll.View())
      ensures requestedEvents == Bits(before.channels[this].requested, mask) && Registered()
    {
      StepAgrees(before, Change(this, mask));
      epoll.UpdateChannel(this);
      UpdateAsks(before, this, mask);
      hide Step, Agree, Bits;
      assert epoll.View().channels[this] == View();
    }

    /** A new mask, and the update. */
    method Request(requested: Events, ghost mask: Mask)
      requires epoll.Valid() && this in epoll.channels && Careful(epoll.View(), Change(this, mask))
      requires requested == Masked(requestedEvents, mask)
      modifies this, epoll
      ensures epoll.Valid() && Step(old(epoll.View()), Change(this, mask)) == Fine(epoll.View())
      ensures requestedEvents == Bits(old(requestedEvents), mask) && Registered()
    {
      hide Agree, Step, SetMask, Careful, Bits, Masked;
      requestedEvents := requested;
      MaskIsSet(mask);
      Update(old(epoll.View()), mask);
    }

    method EnableRead()
      requires epoll.Valid() && this in epoll.channels && Careful(epoll.View(), Change(this, Mask.EnableRead))
      modifies this, epoll
      ensures epoll.Valid() && Step(old(epoll.View()), Change(this, Mask.EnableRead)) == Fine(epoll.View())
      ensures requestedEvents == Bits(old(requestedEvents), Mask.EnableRead) && Registered()
    {
      hide Agree, Step, SetMask, Careful, Bits;
      Request(requestedEvents | READ_EVENT, Mask.EnableRead);
    }

    method DisableRead()
      requires epoll.Valid() && this in epoll.channels && Careful(epoll.View(), Change(this, Mask.DisableRead))
      modifies this, epoll
      ensures epoll.Valid() && Step(old(epoll.View()), Change(this, Mask.DisableRead)) == Fine(epoll.View())
      ensures requestedEvents == Bits(old(requestedEvents), Mask.DisableRead) && Registered()
    {
      hide Agree, Step, SetMask, Careful, Bits;
      Request(requestedEvents & !READ_EVENT, Mask.DisableRead);
    }

    method EnableWrite()
      requires epoll.Valid() && this in epoll.channels && Careful(epoll.View(), Change(this, Mask.EnableWrite))
      modifies this, epoll
      ensures epoll.Valid() && Step(old(epoll.View()), Change(this, Mask.EnableWrite)) == Fine(epoll.View())
      ensures requestedEvents == Bits(old(requestedEvents), Mask.EnableWrite) && Registered()
    {
      hide Agree, Step, SetMask, Careful, Bits;
      Request(requestedEvents | WRITE_EVENT, Mask.EnableWrite);
    }

    method DisableWrite()
      requires epoll.Valid() && this in epoll.channels && Careful(epoll.View(), Change(this, Mask.DisableWrite))
      modifies this, epoll
      ensures epoll.Valid() && Step(old(epoll.View()), Change(this, Mask.DisableWrite)) == Fine(epoll.View())
      ensures requestedEvents == Bits(old(requestedEvents), Mask.DisableWrite) && Registered()
    {
      hide Agree, Step, SetMask, Careful, Bits;
      Request(requestedEvents & !WRITE_EVENT, Mask.DisableWrite);
    }

    method DisableAll()
      requires epoll.Valid() && this in epoll.channels && Careful(epoll.View(), Change(this, Mask.DisableAll))
      modifies this, epoll
      ensures epoll.Valid() && Step(old(epoll.View()), Change(this, Mask.DisableAll)) == Fine(epoll.View())
      ensures requestedEvents == Bits(old(requestedEvents), Mask.DisableAll) && Registered()
    {
      hide Agree, Step, SetMask, Careful, Bits;
      Request(NONE_EVENT, Mask.DisableAll);
    }

    method Remove()
      requires epoll.Valid() && this in epoll.channels && Careful(epoll.View(), Op.Remove(this))
      modifies this, epoll
      ensures epoll.Valid() && Step(old(epoll.View()), Op.Remove(this)) == Fine(epoll.View())
    {
      StepAgrees(epoll.View(), Op.Remove(this));
      epoll.RemoveChannel(this);
    }

    /** The destructor: it tells the selector nothing, so the channel must have been removed. */
    method Destroy()
      requires epoll.Valid() && this in epoll.channels && eventState == NEW
      modifies epoll`channels
      ensures epoll.Valid() && this !in epoll.channels
      ensures Step(old(epoll.View()), Op.Destroy(this)) == Fine(epoll.View())
    {
      assert Careful(epoll.View(), Op.Destroy(this));
      StepAgrees(epoll.View(), Op.Destroy(this));
      epoll.channels := epoll.channels - {this};
      assert epoll.View().channels == old(epoll.View()).channels - {this};
    }
  }

  /** What epoll_wait delivers for one descriptor. */
  datatype Ready = Ready(fd: int, events: Events)

  class Epoll {
    var channelMap: map<int, Channel>
    var eventsSize: nat
    ghost var kernel: map<int, Interest<Channel>>
    ghost var channels: set<Channel>

    ghost function View(): Selector<Channel>
      reads this, channels
    {
      Selector(map c | c in channels :: c.View(), channelMap, kernel)
    }

    ghost predicate Typed()
      reads this
    {
      eventsSize > 0 && forall c <- channels :: c.epoll == this
    }

    ghost predicate Valid()
      reads this, channels
    {
      Typed() && Agree(View())
    }

    constructor ()
      ensures Valid() && View() == Selector(map[], map[], map[]) && eventsSize == INIT_EVENT_VECTOR_SIZE
    {
      channelMap := map[];
      eventsSize := INIT_EVENT_VECTOR_SIZE;
      kernel := map[];
      channels := {};
    }

    /** Epoll::update; the kernel would refuse the request if `Legal` did not hold. */
    method EpollControl(channel: Channel, ghost control: Control)
      requires Legal(kernel, control, channel.fd)
      modifies this`kernel
      ensures kernel == Interested(old(kernel), control, channel.fd, Interest(channel.requestedEvents, channel))
    {
      kernel := Interested(kernel, control, channel.fd, Interest(channel.requestedEvents, channel));
    }

    method UpdateChannel(channel: Channel)
      requires Typed() && channel in channels && EpollState.UpdateChannel(View(), channel).Fine?
      modifies this`channelMap, this`kernel, channel`eventState
      ensures Typed() && View() == EpollState.UpdateChannel(old(View()), channel).next
    {
      var fd := channel.fd;
      ghost var before := View();
      assert before.channels[channel] == channel.View();
      match channel.eventState
      case NEW =>
        assert fd !in channelMap;
        channelMap := channelMap[fd := channel];
        channel.eventState := ADDED;
        EpollControl(channel, Add);
        assert View().channels == before.channels[channel := channel.View()];
      case ADDED =>
        assert fd in channelMap;
        assert channelMap[fd] == channel;
        if channel.IsNoEvent() {
          channel.eventState := DELETED;
          EpollControl(channel, Del);
          assert View().channels == before.channels[channel := channel.View()];
        } else {
          EpollControl(channel, Mod);
          assert View().channels == before.channels;
        }
      case DELETED =>
        assert fd in channelMap;
        assert channelMap[fd] == channel;
        channel.eventState := ADDED;
        EpollControl(channel, Add);
        assert View().channels == before.channels[channel := channel.View()];
    }

    method RemoveChannel(channel: Channel)
      requires Typed() && channel in channels && EpollState.RemoveChannel(View(), channel).Fine?
      modifies this`channelMap, this`kernel, channel`eventState
      ensures Typed() && View() == EpollState.RemoveChannel(old(View()), channel).next
    {
      ghost var before := View();
      assert before.channels[channel] == channel.View();
      channelMap := channelMap - {channel.fd};
      if channel.eventState.ADDED? {
        EpollControl(channel, Del);
      }
      channel.eventState := NEW;
      assert View().channels == before.channels[channel := channel.View()];
    }

    /** Epoll::select: stores what the kernel reported in the channels and collects them in that order; the
        event array doubles when it was filled completely. */
    method Select(ready: seq<Ready>) returns (activeChannels: seq<Channel>)
      requires Valid() && |ready| <= eventsSize
      requires forall i | 0 <= i < |ready| :: ready[i].fd in kernel
      requires forall i, j | 0 <= i < j < |ready| :: ready[i].fd != ready[j].fd
      modifies this`eventsSize, channels`returnedEvents
      ensures Valid() && View() == old(View())
      ensures |activeChannels| == |ready|
      ensures forall i | 0 <= i < |ready| :: activeChannels[i] in channels && activeChannels[i].fd == ready[i].fd
                                            && activeChannels[i].eventState == ADDED
                                            && activeChannels[i].returnedEvents == ready[i].events
      ensures eventsSize == if |ready| == old(eventsSize) then 2 * old(eventsSize) else old(eventsSize)
    {
      ghost var view := View();
      activeChannels := [];
      for i := 0 to |ready|
        invariant Typed() && View() == view && eventsSize == old(eventsSize)
        invariant |activeChannels| == i
        invariant forall k | 0 <= k < i :: activeChannels[k] in channels && activeChannels[k].fd == ready[k].fd
                                          && activeChannels[k].eventState == ADDED
                                          && activeChannels[k].returnedEvents == ready[k].events
      {
        ReportedIsMapped(view, ready[i].fd);
        var channel := channelMap[ready[i].fd];
        assert channel == kernel[ready[i].fd].channel;
        channel.returnedEvents := ready[i].events;
        activeChannels := activeChannels + [channel];
        assert View().channels == view.channels;
      }
      if |ready| == eventsSize {
        eventsSize := 2 * eventsSize;
      }
    }
  }
}

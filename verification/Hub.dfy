/** The realtime hub's subscriptions and the channel index its dispatch reads
    (apps/api/src/realtime/hub.ts). */
module Hub {
  type Channel = string

  /** One listener's subscription; two of the same channels are still two. */
  class Subscription {
    const channels: seq<Channel>

    constructor (channels: seq<Channel>)
      ensures this.channels == channels
    {
      this.channels := channels;
    }
  }

  /** What the index should say of a channel. */
  function On(subscriptions: set<Subscription>, channel: Channel): set<Subscription> {
    set s | s in subscriptions && channel in s.channels
  }

  /** The index answers for exactly the channels someone is on. */
  ghost predicate Indexes(subscriptions: set<Subscription>, byChannel: map<Channel, set<Subscription>>) {
    forall channel: Channel ::
      && (channel in byChannel <==> On(subscriptions, channel) != {})
      && (channel in byChannel ==> byChannel[channel] == On(subscriptions, channel))
  }

  function Lookup(byChannel: map<Channel, set<Subscription>>, channel: Channel): set<Subscription> {
    if channel in byChannel then byChannel[channel] else {}
  }

  /** The index as lookups see it, with no empty entry. */
  lemma LookupsIndex(subscriptions: set<Subscription>, byChannel: map<Channel, set<Subscription>>)
    requires forall channel: Channel :: channel in byChannel ==> byChannel[channel] != {}
    requires forall channel: Channel :: Lookup(byChannel, channel) == On(subscriptions, channel)
    ensures Indexes(subscriptions, byChannel)
  {
    forall channel: Channel
      ensures channel in byChannel <==> On(subscriptions, channel) != {}
      ensures channel in byChannel ==> byChannel[channel] == On(subscriptions, channel)
    {
      assert Lookup(byChannel, channel) == On(subscriptions, channel);
    }
  }

  class RealtimeHub {
    var subscriptions: set<Subscription>
    var byChannel: map<Channel, set<Subscription>>
    var closing: bool

    ghost predicate Valid()
      reads this
    {
      Indexes(subscriptions, byChannel) && (closing ==> subscriptions == {})
    }

    constructor ()
      ensures Valid() && subscriptions == {} && !closing
    {
      subscriptions, byChannel, closing := {}, map[], false;
    }

    /** subscribe: a closed hub takes no one (and interrupts the listener). */
    method Subscribe(channels: seq<Channel>) returns (subscription: Subscription, interrupted: bool)
      requires Valid()
      modifies this
      ensures Valid() && closing == old(closing) && fresh(subscription) && subscription.channels == channels
      ensures interrupted == old(closing)
      ensures subscriptions == if old(closing) then old(subscriptions) else old(subscriptions) + {subscription}
    {
      subscription := new Subscription(channels);
      if closing {
        return subscription, true;
      }
      var before := subscriptions;
      subscriptions := subscriptions + {subscription};
      for i := 0 to |channels|
        invariant subscriptions == before + {subscription} && closing == old(closing) && subscription !in before
        invariant forall channel: Channel :: channel in byChannel ==> byChannel[channel] != {}
        invariant forall channel: Channel :: Lookup(byChannel, channel) ==
                    On(before, channel) + (if channel in channels[..i] then {subscription} else {})
      {
        var channel := channels[i];
        assert channels[..i + 1] == channels[..i] + [channel];
        var targets := if channel in byChannel then byChannel[channel] else {};
        byChannel := byChannel[channel := targets + {subscription}];
      }
      assert channels[..|channels|] == channels;
      forall channel: Channel ensures Lookup(byChannel, channel) == On(subscriptions, channel) {
        assert On(subscriptions, channel) == On(before, channel) + (if channel in channels then {subscription} else {});
      }
      LookupsIndex(subscriptions, byChannel);
      return subscription, false;
    }

    /** The function subscribe returns: leaves once, however often it is called. */
    method Unsubscribe(subscription: Subscription)
      requires Valid()
      modifies this
      ensures Valid() && closing == old(closing) && subscriptions == old(subscriptions) - {subscription}
    {
      if subscription !in subscriptions {
        return;
      }
      var before, channels := subscriptions, subscription.channels;
      subscriptions := subscriptions - {subscription};
      for i := 0 to |channels|
        invariant subscriptions == before - {subscription} && closing == old(closing)
        invariant forall channel: Channel :: channel in byChannel ==> byChannel[channel] != {}
        invariant forall channel: Channel :: Lookup(byChannel, channel) ==
                    On(before, channel) - (if channel in channels[..i] then {subscription} else {})
      {
        var channel := channels[i];
        assert channels[..i + 1] == channels[..i] + [channel];
        if channel in byChannel {
          var targets := byChannel[channel] - {subscription};
          byChannel := if targets == {} then byChannel - {channel} else byChannel[channel := targets];
        }
      }
      assert channels[..|channels|] == channels;
      forall channel: Channel ensures Lookup(byChannel, channel) == On(subscriptions, channel) {
        assert On(subscriptions, channel) == On(before, channel) - (if channel in channels then {subscription} else {});
      }
      LookupsIndex(subscriptions, byChannel);
    }

    /** dispatch: exactly the live subscriptions on the event's channel get it. */
    method Dispatch(channel: Channel) returns (targets: set<Subscription>)
      requires Valid()
      ensures forall s :: s in targets <==> s in subscriptions && channel in s.channels
    {
      targets := if channel in byChannel then byChannel[channel] else {};
      assert targets == On(subscriptions, channel);
    }

    /** close: everyone is interrupted, once. */
    method Close() returns (interrupted: set<Subscription>)
      requires Valid()
      modifies this
      ensures Valid() && closing && subscriptions == {}
      ensures interrupted == if old(closing) then {} else old(subscriptions)
    {
      if closing {
        return {};
      }
      interrupted := subscriptions;
      subscriptions, byChannel, closing := {}, map[], true;
      LookupsIndex(subscriptions, byChannel);
    }
  }
}

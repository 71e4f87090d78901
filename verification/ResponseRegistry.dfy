/** The mutex sections of the response registry, as they update the map and the channels in place. */
module ResponseRegistry {
  import opened RegistryProtocol

  /** A one-slot channel, as the registry uses it. */
  class Channel {
    var buf: Option<Msg>
    var closed: bool

    constructor ()
      ensures buf == None && !closed
    {
      buf := None;
      closed := false;
    }

    /** A send; Go would panic if the channel were closed and block if the slot were full. */
    method Send(m: Msg)
      requires !closed && buf == None
      modifies this
      ensures buf == Some(m) && !closed
    {
      buf := Some(m);
    }

    /** Go would panic if the channel were already closed. */
    method Close()
      requires !closed
      modifies this`closed
      ensures closed
    {
      closed := true;
    }
  }

  class Registry {
    var responses: map<nat, Channel>

    /** Distinct requests have distinct channels, and a registered channel is open and empty. */
    ghost predicate Valid()
      reads this, responses.Values
    {
      && (forall q :: q in responses ==> !responses[q].closed && responses[q].buf == None)
      && (forall p, q :: p in responses && q in responses && p != q ==> responses[p] != responses[q])
    }

    constructor ()
      ensures Valid() && responses == map[]
    {
      responses := map[];
    }

    /** registerResponseIfAbsent (dap.go:355-363). */
    method RegisterIfAbsent(q: nat) returns (created: bool)
      requires Valid()
      modifies this
      ensures Valid()
      ensures created <==> q !in old(responses)
      ensures responses.Keys == old(responses.Keys) + {q}
      ensures forall k :: k in old(responses) ==> responses[k] == old(responses)[k]
      ensures created ==> fresh(responses[q])
    {
      if q in responses { return false; }
      var ch := new Channel();
      responses := responses[q := ch];
      created := true;
    }

    /** unregisterResponse (dap.go:367-371). */
    method Unregister(q: nat)
      requires Valid()
      modifies this
      ensures Valid() && responses == old(responses) - {q}
    {
      responses := responses - {q};
    }

    /** dispatchResponse (dap.go:1083-1098): the entry leaves the registry and its channel gets the message;
        a response nobody waits for changes nothing. */
    method DispatchResponse(m: Msg) returns (delivered: bool)
      requires Valid()
      modifies this, responses.Values
      ensures Valid() && delivered == (m.req in old(responses))
      ensures responses == old(responses) - {m.req}
      ensures delivered ==> old(responses)[m.req].buf == Some(m) && !old(responses)[m.req].closed
      ensures forall k :: k in old(responses) && k != m.req ==>
                old(responses)[k].buf == None && !old(responses)[k].closed
    {
      delivered := m.req in responses;
      if delivered {
        var ch := responses[m.req];
        responses := responses - {m.req};
        ch.Send(m);
      }
    }

    /** closeRegistry (dap.go:1134-1142), in whatever order the map is walked: every registered channel is
        closed once, none gets a message, and the registry is empty. */
    method CloseRegistry()
      requires Valid()
      modifies this, responses.Values
      ensures Valid() && responses == map[]
      ensures forall k :: k in old(responses) ==> old(responses)[k].closed && old(responses)[k].buf == None
    {
      ghost var all := responses;
      while responses != map[]
        invariant responses.Keys <= all.Keys && forall k :: k in responses ==> responses[k] == all[k]
        invariant forall k :: k in all ==> all[k].buf == None && (all[k].closed <==> k !in responses)
        decreases responses.Keys
      {
        var q :| q in responses;
        var ch := responses[q];
        responses := responses - {q};
        ch.Close();
      }
    }
  }
}

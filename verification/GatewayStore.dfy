// The gateway's store as it works: rows updated in place, each method equal to its command on the
// rows.
module GatewayStores {
  import P = ReplyPipeline
  import opened ReplyPipeline

  class GatewayStore {
    var inbox: map<Key, Inbox>
    var outbound: map<Key, Outbound>
    const retryAfter: int

    function State(): Rows
      reads this
    {
      Rows(inbox, outbound)
    }

    constructor (retryAfter: int)
      ensures State() == Rows(map[], map[]) && this.retryAfter == retryAfter
    {
      this.retryAfter := retryAfter;
      inbox, outbound := map[], map[];
    }

    method ClaimEvent(key: Key, now: int) returns (claimed: bool)
      modifies this`inbox
      ensures (State(), claimed) == P.ClaimEvent(old(State()), key, now, retryAfter)
      ensures claimed <==> key !in old(inbox) || old(inbox)[key].status == Failed ||
                           (old(inbox)[key].status == Processing && now - old(inbox)[key].updatedAt >= retryAfter)
      ensures !claimed ==> inbox == old(inbox)
      ensures claimed ==> key in inbox && inbox[key].status == Processing && inbox[key].updatedAt == now &&
                          inbox[key].attempts == (if key in old(inbox) then old(inbox)[key].attempts else 0) + 1
      ensures inbox - {key} == old(inbox) - {key}
    {
      if key !in inbox {
        inbox := inbox[key := Inbox(Processing, 1, now)];
        return true;
      }
      var row := inbox[key];
      if row.status == Completed || row.status == Expired {
        return false;
      }
      if row.status == Processing && now - row.updatedAt < retryAfter {
        return false;
      }
      inbox := inbox[key := Inbox(Processing, row.attempts + 1, now)];
      return true;
    }

    method ClaimOutbound(key: Key, now: int) returns (claim: OutboundClaim)
      modifies this`outbound
      ensures (State(), claim) == P.ClaimOutbound(old(State()), key, now, retryAfter)
      ensures claim == AlreadySent <==> key in old(outbound) && old(outbound)[key].status == Sent
      ensures claim == InFlight <==> key in old(outbound) && old(outbound)[key].status == Sending &&
                                     now - old(outbound)[key].updatedAt < retryAfter
      ensures claim != Claimed ==> outbound == old(outbound)
      ensures claim == Claimed ==> key in outbound && outbound[key].status == Sending && outbound[key].updatedAt == now &&
                                   outbound[key].attempts == (if key in old(outbound) then old(outbound)[key].attempts else 0) + 1
      ensures outbound - {key} == old(outbound) - {key}
    {
      if key in outbound && outbound[key].status == Sent {
        return AlreadySent;
      }
      if key in outbound && outbound[key].status == Sending && now - outbound[key].updatedAt < retryAfter {
        return InFlight;
      }
      if key !in outbound {
        outbound := outbound[key := Outbound(Sending, 1, now)];
      } else {
        outbound := outbound[key := Outbound(Sending, outbound[key].attempts + 1, now)];
      }
      return Claimed;
    }

    method TouchEvent(key: Key, now: int)
      modifies this`inbox
      ensures State() == P.TouchEvent(old(State()), key, now)
      ensures inbox.Keys == old(inbox).Keys && inbox - {key} == old(inbox) - {key}
      ensures key in inbox ==> inbox[key].status == old(inbox)[key].status && inbox[key].attempts == old(inbox)[key].attempts &&
                               inbox[key].updatedAt == if inbox[key].status == Processing then now else old(inbox)[key].updatedAt
    {
      if key in inbox && inbox[key].status == Processing {
        inbox := inbox[key := inbox[key].(updatedAt := now)];
      }
    }

    method FinishEvent(key: Key, status: InboxStatus, now: int)
      modifies this`inbox
      ensures State() == P.SetStatus(old(State()), key, status, now)
      ensures inbox.Keys == old(inbox).Keys && inbox - {key} == old(inbox) - {key}
      ensures key in inbox ==> inbox[key] == Inbox(status, old(inbox)[key].attempts, now)
    {
      if key in inbox {
        inbox := inbox[key := inbox[key].(status := status, updatedAt := now)];
      }
    }

    method FinishOutbound(key: Key, status: OutboundStatus, now: int)
      modifies this`outbound
      ensures State() == P.SetOutbound(old(State()), key, status, now)
      ensures outbound.Keys == old(outbound).Keys && outbound - {key} == old(outbound) - {key}
      ensures key in outbound ==> outbound[key] == Outbound(status, old(outbound)[key].attempts, now)
    {
      if key in outbound {
        outbound := outbound[key := outbound[key].(status := status, updatedAt := now)];
      }
    }
  }
}

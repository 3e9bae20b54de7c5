/** The directory of servers, and the exchange a replica makes through it. */
module LocalConnection {
  import opened Types
  import opened PushBuffer
  import opened History
  import opened Replica
  import opened PullHandling
  import opened DatatypeServer
  import opened MutableReplica
  import opened PullSteps
  import opened LocalServer

  lemma OnlyPushesNotify(server: Server, p: PushPullPack)
    ensures server.Notifies(p) ==> p.state.Subscribed? || p.state.Unsubscribing?
  {
  }

  class LocalConnectivity {
    var datatypeServers: map<ResourceId, LocalDatatypeServer>
    var isRealtime: bool

    /** No server is listed twice. */
    ghost predicate Valid()
      reads this, datatypeServers.Values
    {
      && (forall r :: r in datatypeServers ==> datatypeServers[r].Valid())
      && (forall q, r :: q in datatypeServers && r in datatypeServers && q != r ==>
            datatypeServers[q] != datatypeServers[r])
    }

    constructor ()
      ensures Valid() && datatypeServers == map[] && isRealtime
    {
      datatypeServers, isRealtime := map[], true;
    }

    /** Registers a replica with the server of its resource, which is made when it is the first. */
    method Register(wired: MutableDatatype)
      requires Valid()
      modifies this, datatypeServers.Values
      ensures Valid() && wired.resource in datatypeServers
      ensures var r, server := wired.resource, datatypeServers[wired.resource];
        && datatypeServers == old(datatypeServers)[r := server]
        && (if r in old(datatypeServers) then
              server == old(datatypeServers)[r] && server.View() == old(datatypeServers[r].View()).Insert(wired.cuid)
            else
              fresh(server) && server.View() == Server.New(wired.typ, wired.duid, wired.cuid).Insert(wired.cuid))
        && wired.cuid in server.wiredMap && server.wiredMap[wired.cuid] == wired
      ensures forall q :: q in old(datatypeServers) && q != wired.resource ==>
        datatypeServers[q].View() == old(datatypeServers[q].View())
    {
      var resource := wired.resource;
      if resource !in datatypeServers {
        var server := new LocalDatatypeServer(wired.typ, wired.duid, wired.cuid);
        datatypeServers := datatypeServers[resource := server];
      }
      var server := datatypeServers[resource];
      server.InsertClientItem(wired);
    }

    /** The server's processing by the state the request carries. */
    method Dispatch(server: LocalDatatypeServer, pushed: PushPullPack)
      returns (pulled: PushPullPack, ghost heir: Cuid)
      requires server.Valid() && server.DonorValid()
      modifies server
      ensures server.Valid() && Served(server, pushed, pulled, heir)
      ensures NotifiedBy(server, isRealtime, pushed)
    {
      hide Server.ProcessCreating, Server.ProcessSubscribing, Server.ProcessSubscribingOrCreating;
      hide Server.ProcessSubscribed, Server.ProcessUnsubscribing, Server.Notifies;
      OnlyPushesNotify(server.View(), pushed);
      heir := AnyOther(server.wiredMap.Keys, pushed.cuid);
      match pushed.state {
        case Creating => pulled := server.ProcessCreating(pushed);
        case Subscribing => pulled := server.ProcessSubscribing(pushed);
        case SubscribingOrCreating => pulled := server.ProcessSubscribingOrCreating(pushed);
        case Subscribed => pulled := server.ProcessSubscribed(pushed, isRealtime);
        case Unsubscribing => pulled, heir := server.ProcessUnsubscribing(pushed, isRealtime);
        case Deleting => pulled := server.ProcessDeleting(pushed);
        case Disabled => pulled := server.ProcessDisabled(pushed);
      }
    }

    /** Hands a request to the server of its resource; the server is dropped from the directory with
        its last client. */
    method PushPull(pushed: PushPullPack) returns (pulled: PushPullPack, ghost heir: Cuid)
      requires Valid()
      requires pushed.resource in datatypeServers ==> datatypeServers[pushed.resource].DonorValid()
      modifies this, datatypeServers.Values
      ensures Valid()
      ensures pushed.resource !in old(datatypeServers) ==>
        pulled == pushed.Rejected(ResourceNotFound) && datatypeServers == old(datatypeServers)
      ensures pushed.resource in old(datatypeServers) ==>
        Served(old(datatypeServers)[pushed.resource], pushed, pulled, heir)
        && NotifiedBy(old(datatypeServers)[pushed.resource], isRealtime, pushed)
      ensures pushed.resource in old(datatypeServers) ==>
        datatypeServers == (
          if pushed.state.Unsubscribing? && old(datatypeServers)[pushed.resource].wiredMap.Keys == {}
          then old(datatypeServers) - {pushed.resource} else old(datatypeServers))
      ensures forall q :: q in old(datatypeServers) && q != pushed.resource ==>
        old(datatypeServers)[q].View() == old(datatypeServers[q].View())
    {
      heir := 0;
      var resource := pushed.resource;
      if resource !in datatypeServers {
        pulled := pushed.PulledStub();
        pulled := pulled.(error := Some(ResourceNotFound), state := Disabled);
        return;
      }
      var server := datatypeServers[resource];
      pulled, heir := Dispatch(server, pushed);
      if pushed.state.Unsubscribing? && server.wiredMap.Keys == {} {
        datatypeServers := datatypeServers - {resource};
      }
    }
  }

  /** The server has handled the request, with some registered client as heir. */
  twostate predicate Served(server: LocalDatatypeServer, pushed: PushPullPack, pulled: PushPullPack, heir: Cuid)
    reads server
  {
    && (server.View(), pulled) == old(server.View()).Process(pushed, old(server.Donor()), heir)
    && (heir in old(server.wiredMap).Keys - {pushed.cuid} || old(server.wiredMap).Keys - {pushed.cuid} == {})
  }

  /** In realtime mode a push has been announced to every other registered client; a client that has
      unsubscribed is not sent anything any more. */
  twostate predicate NotifiedBy(server: LocalDatatypeServer, isRealtime: bool, pushed: PushPullPack)
    reads server
  {
    server.senderMap ==
      AfterNotifying(old(server.senderMap), isRealtime && old(server.View()).Notifies(pushed),
                     Notification(pushed.cuid, server.duid, server.sseq))
      - (if pushed.state.Unsubscribing? then {pushed.cuid} else {})
  }
}

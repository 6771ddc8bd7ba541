/** The WebSocket event handlers, as they call the services and the media router in turn. Each
 * does to the rows, the presence state and the sessions what the stage does in one step.
 */
module WsHandlers {
  import opened Wrappers
  import opened Cursor
  import opened RoomUsers
  import Roles
  import Membership
  import MembershipService
  import MediaRouter
  import Sfu
  import opened Stage

  // The objects hold what the stage holds.
  ghost predicate Holds(service: MembershipService.RoomUserService, media: MediaRouter.MediaRouter, s: System)
    reads service.repo, service.presence, media.store, media.store.sessions.Values
  {
    && media.store.Valid() && media.store.View() == s.media.store
    && service.repo.rows == s.world.rows && service.presence.db == s.world.presence
  }

  class WsHandler {
    const service: MembershipService.RoomUserService
    const media: MediaRouter.MediaRouter

    constructor (service: MembershipService.RoomUserService, media: MediaRouter.MediaRouter)
      ensures this.service == service && this.media == media
    {
      this.service := service;
      this.media := media;
    }

    ghost predicate Shows(s: System)
      reads service.repo, service.presence, media.store, media.store.sessions.Values
    {
      Holds(service, media, s)
    }

    // Whether the client's user is a member of its room and not blocked.
    method CheckMembership(client: Sfu.Client) returns (ok: bool)
      ensures ok <==> Membership.FindBy(service.repo.rows, client.user, client.room).Some?
    {
      var ru := Membership.FindBy(service.repo.rows, client.user, client.room);
      return ru.Some?;
    }

    method HandleUserJoined(ghost s: System, c: ClientId, client: Sfu.Client, pc: nat,
                            clients: seq<ClientId>, fails: set<ClientId>)
      requires Shows(s) && Enabled(s, JoinStream(c, clients, fails)) && s.media.clients[c] == client
      requires pc == s.media.nextPc
      modifies media.store, media.store.sessions.Values
      ensures Shows(Step(s, JoinStream(c, clients, fails)))
    {
      var member := CheckMembership(client);
      if member {
        media.Join(c, pc, clients, fails);
      }
    }

    // The callback that the join handler leaves with the peer connection; the row is there. Its
    // session may have been replaced or removed since.
    method OnTrack(ghost s: System, c: ClientId, client: Sfu.Client, session: MediaRouter.Session, t: Sfu.Track,
                   clients: seq<ClientId>, fails: set<ClientId>, stuck: set<Sfu.Sender>)
      requires Shows(s) && Enabled(s, Stage.OnTrack(c, media.Stored(c, session), clients, fails, stuck))
      requires s.media.clients[c] == client && media.Belongs(c, session) && t == Sfu.Track(c, s.media.nextTrack)
      modifies media.store.sessions.Values, session
      ensures media.Stored(c, session) == old(media.Stored(c, session))
      ensures Shows(Step(s, Stage.OnTrack(c, media.Stored(c, session), clients, fails, stuck)))
    {
      var ru := Membership.FindBy(service.repo.rows, client.user, client.room);
      if ru.value.IsListener() {
        return;
      }
      media.Publish(c, session, t, clients, fails, stuck);
    }

    method HandleUserLeft(ghost s: System, c: ClientId, client: Sfu.Client, now: Stamp, stuck: set<Sfu.Sender>)
      requires Shows(s) && Enabled(s, LeaveRoom(c, now, stuck)) && s.media.clients[c] == client
      modifies service.repo, service.presence, media.store, media.store.sessions.Values
      ensures Shows(Step(s, LeaveRoom(c, now, stuck)))
    {
      var r := service.RemoveUser(client.user, client.room, now);
      if r.Err? {
        return;
      }
      media.Leave(c, stuck);
    }

    // Unlike leaving, hanging up closes the session even if the row could not be updated.
    method HandleClientDisconnected(ghost s: System, c: ClientId, client: Sfu.Client, now: Stamp,
                                    stuck: set<Sfu.Sender>)
      requires Shows(s) && Enabled(s, Disconnected(c, now, stuck)) && s.media.clients[c] == client
      modifies service.repo, service.presence, media.store, media.store.sessions.Values
      ensures Shows(Step(s, Disconnected(c, now, stuck)))
    {
      var _ := service.RemoveUser(client.user, client.room, now);
      media.Leave(c, stuck);
    }
  }

  // The revoking calls look at rows and presence only.
  lemma RoomsDoNotMatter(w: Membership.World, v: Membership.World, call: Membership.Call)
    requires MayRevoke(call) && w.rows == v.rows && w.presence == v.presence
    ensures var out, other := Membership.Perform(w, call), Membership.Perform(v, call);
            && out.world.rows == other.world.rows && out.world.presence == other.world.presence
            && out.result == other.result && out.revoked == other.revoked
  {
  }

  // The service's two revoking calls with the router as the revoker they call.
  class Moderation {
    const service: MembershipService.RoomUserService
    const media: MediaRouter.MediaRouter

    constructor (service: MembershipService.RoomUserService, media: MediaRouter.MediaRouter)
      ensures this.service == service && this.media == media
    {
      this.service := service;
      this.media := media;
    }

    // Stops the user's clients if the service asked for it.
    method CarryOut(asked: bool, user: UserId, clients: seq<(ClientId, UserId)>, stuck: set<Sfu.Sender>)
      requires media.store.Valid()
      modifies media.store.sessions.Values
      ensures media.store.Valid()
      ensures media.store.View()
              == if asked then Sfu.Revoked(old(media.store.View()), user, clients, stuck) else old(media.store.View())
    {
      if asked {
        media.RevokePublishing(user, clients, stuck);
      }
    }

    method Block(ghost s: System, room: RoomId, user: UserId, actor: UserId, now: Stamp,
                 clients: seq<(ClientId, UserId)>, stuck: set<Sfu.Sender>)
      returns (r: Membership.Result<Option<RoomUser>>)
      requires Holds(service, media, s) && Enabled(s, Serve(Membership.Block(room, user, actor, now), clients, stuck))
      modifies service, service.repo, media.store.sessions.Values
      ensures Holds(service, media, Step(s, Serve(Membership.Block(room, user, actor, now), clients, stuck)))
      ensures r == Membership.Perform(s.world, Membership.Block(room, user, actor, now)).result
    {
      RoomsDoNotMatter(service.State(), s.world, Membership.Block(room, user, actor, now));
      var before := |service.revocations|;
      r := service.Block(room, user, actor, now);
      CarryOut(|service.revocations| > before, user, clients, stuck);
    }

    method UpdateRole(ghost s: System, room: RoomId, user: UserId, name: Roles.RoleName, actor: UserId,
                      clients: seq<(ClientId, UserId)>, stuck: set<Sfu.Sender>)
      returns (r: Membership.Result<Option<RoomUser>>)
      requires Holds(service, media, s)
      requires Enabled(s, Serve(Membership.UpdateRole(room, user, name, actor), clients, stuck))
      modifies service, service.repo, service.presence, media.store.sessions.Values
      ensures Holds(service, media, Step(s, Serve(Membership.UpdateRole(room, user, name, actor), clients, stuck)))
      ensures r == Membership.Perform(s.world, Membership.UpdateRole(room, user, name, actor)).result
    {
      RoomsDoNotMatter(service.State(), s.world, Membership.UpdateRole(room, user, name, actor));
      var before := |service.revocations|;
      r := service.UpdateRole(room, user, name, actor);
      CarryOut(|service.revocations| > before, user, clients, stuck);
    }
  }
}

/** Room roles: who may hand them out and who may act on whom. */
module Roles {
  datatype Role = Owner | Admin | Moderator | Speaker | Listener

  // A role name as a request spells it; names outside the role table are refused.
  datatype RoleName = Known(role: Role) | Unknown(name: string)

  // The roles whose holders may assign `name`.
  function AssignmentPermissions(name: RoleName): set<Role> {
    match name
    case Known(Owner) => {}
    case Known(Listener) => {Owner, Admin, Moderator}
    case Known(Speaker) => {Owner, Admin, Moderator}
    case Known(Moderator) => {Owner, Admin}
    case Known(Admin) => {Owner, Admin}
    case Unknown(_) => {}
  }

  // The roles a holder of `actor` may moderate.
  function ModerationPermissions(actor: Role): set<Role> {
    match actor
    case Owner => {Owner, Admin, Moderator, Speaker, Listener}
    case Admin => {Admin, Moderator, Speaker, Listener}
    case Moderator => {Moderator, Speaker, Listener}
    case Speaker => {}
    case Listener => {}
  }

  predicate CanModerate(actor: Role, target: Role) { target in ModerationPermissions(actor) }

  predicate CanManage(r: Role) { r in {Owner, Admin, Moderator} }

  predicate CanSpeak(r: Role) { CanManage(r) || r == Speaker }

  // How much a role may do; the tables above never look upwards.
  function Rank(r: Role): nat {
    match r
    case Owner => 4
    case Admin => 3
    case Moderator => 2
    case Speaker => 1
    case Listener => 0
  }

  // Both tables only ever let a role act on, or hand out, roles of at most its own rank,
  // and the moderation table lets managers do so for every such role.
  lemma TablesFollowRank(actor: Role, target: Role)
    ensures actor in AssignmentPermissions(Known(target)) ==> Rank(target) <= Rank(actor) && target != Owner
    ensures CanModerate(actor, target) <==> CanManage(actor) && Rank(target) <= Rank(actor)
  {
    match actor { case Owner => case Admin => case Moderator => case Speaker => case Listener => }
  }
}

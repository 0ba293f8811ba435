/** Who may do what: the role checks of the ticket service. */
module Access {
  import opened Domain

  datatype Role = Customer | SupportAgent | Admin

  datatype User = User(id: UserId, role: Role, active: bool)

  /** No user stands for internal callers. */
  type Caller = Option<User>

  predicate MayCreate(caller: Caller) {
    caller.None? || caller.value.role == Customer || caller.value.role == Admin
  }

  predicate MayRead(caller: Caller, row: Row) {
    || caller.None? || caller.value.role == Admin
    || (caller.value.role == Customer && row.customer == Some(caller.value.id))
    || caller.value.role == SupportAgent
  }

  predicate MayEdit(caller: Caller) {
    caller.Some? && (caller.value.role == Admin || caller.value.role == SupportAgent)
  }

  predicate MayAssign(caller: Caller, agent: Option<User>) {
    && caller.Some? && caller.value.role == Admin
    && agent.Some? && agent.value.role == SupportAgent && agent.value.active
  }

  // ---------- the rules by role ----------

  /** Support agents may not create tickets; everybody else may, internal callers included. */
  lemma WhoMayCreate(caller: Caller)
    ensures caller.None? ==> MayCreate(caller)
    ensures caller.Some? ==> (MayCreate(caller) <==> caller.value.role != SupportAgent)
  {
  }

  /** Customers may read their own tickets and nobody else's; everybody else may read all. */
  lemma WhoMayRead(caller: Caller, row: Row)
    ensures !MayRead(caller, row) <==>
              caller.Some? && caller.value.role == Customer && row.customer != Some(caller.value.id)
  {
  }

  /** Customers and internal callers may not edit. */
  lemma WhoMayEdit(caller: Caller)
    ensures caller.None? ==> !MayEdit(caller)
    ensures caller.Some? ==> (MayEdit(caller) <==> caller.value.role != Customer)
  {
  }
}

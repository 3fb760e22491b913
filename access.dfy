/**
 * The two role rules of the handlers, in one place: founder-only actions
 * (`founder_required`, app.py 207-213, and the inline `current_user.role ==
 * "founder"` guards at lines 275, 348, 451 and 502), and the edit-task update,
 * which the founder or the task's assignee may perform (line 528).
 */
module Access {
  import opened Schema

  /** What an action demands of its caller. */
  datatype Capability = FounderOnly | FounderOrAssignee(assigneeId: int)

  predicate IsFounder(a: Actor) {
    a.role == Founder
  }

  /**
   * Whether the actor may perform an action that needs the capability. A founder
   * passes every check, and a task's assignee
   * passes the check on that task whatever their role.
   */
  predicate Permits(a: Actor, cap: Capability)
    ensures IsFounder(a) ==> Permits(a, cap)
    ensures cap.FounderOrAssignee? && a.id == cap.assigneeId ==> Permits(a, cap)
  {
    match cap
    case FounderOnly => IsFounder(a)
    case FounderOrAssignee(assignee) => IsFounder(a) || a.id == assignee
  }
}

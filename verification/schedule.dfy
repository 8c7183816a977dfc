/** The schedule plan and the dispatch in `main` that turns it into at most
    one job registration (pg_backup.go:46-51, 113-121). The scheduler
    library's timing is not modelled: a registration is the Cadence value it
    would be given. */
module Schedule {
  import opened Wrappers

  /** Go's uint64, the type of the shHour and shMinute fields. */
  type Uint64 = x: int | 0 <= x < 0x1_0000_0000_0000_0000

  /** The ShedulePlan section of the configuration: the plan's name, the
      daily time, and the hour and minute intervals. */
  datatype Plan = Plan(name: string, time: string, hours: Uint64, minutes: Uint64)

  /** The one registration a plan can make: every day at a time of day,
      every n hours, or every n minutes. */
  datatype Cadence = Daily(at: string) | Hourly(every: Uint64) | Minutely(every: Uint64)

  const DailyPlan: string := "time"
  const HourlyPlan: string := "hour"
  const MinutelyPlan: string := "minute"

  /** The plan name that selects a cadence. */
  function PlanName(c: Cadence): string {
    match c
    case Daily(_) => DailyPlan
    case Hourly(_) => HourlyPlan
    case Minutely(_) => MinutelyPlan
  }

  /** Writes a cadence into a plan, keeping `base`'s fields the cadence does
      not use: the inverse direction of Dispatch. */
  function PlanFor(c: Cadence, base: Plan): Plan {
    match c
    case Daily(t) => base.(name := DailyPlan, time := t)
    case Hourly(n) => base.(name := HourlyPlan, hours := n)
    case Minutely(n) => base.(name := MinutelyPlan, minutes := n)
  }

  /** The if/else chain of `main`: the plan name picks one registration,
      carrying the matching field; any other name registers nothing. No
      interval is checked, so an interval of 0 is passed on as it is. */
  function Dispatch(p: Plan): (r: Option<Cadence>)
    ensures r.Some? <==> p.name in {DailyPlan, HourlyPlan, MinutelyPlan}
    ensures r.Some? ==> PlanName(r.value) == p.name
    ensures r.Some? ==> PlanFor(r.value, p) == p
  {
    if p.name == DailyPlan then Some(Daily(p.time))
    else if p.name == HourlyPlan then Some(Hourly(p.hours))
    else if p.name == MinutelyPlan then Some(Minutely(p.minutes))
    else None
  }

  /** Every cadence is reachable: writing it into any plan and dispatching
      gives it back. */
  lemma DispatchPlanFor(c: Cadence, base: Plan)
    ensures Dispatch(PlanFor(c, base)) == Some(c)
  {
  }

  /** Dispatch reads only the field of its own mode: two plans with the same
      name that agree on that field register the same thing. */
  lemma DispatchReadsOnlySelectedField(p: Plan, q: Plan)
    requires p.name == q.name
    requires p.name == DailyPlan ==> p.time == q.time
    requires p.name == HourlyPlan ==> p.hours == q.hours
    requires p.name == MinutelyPlan ==> p.minutes == q.minutes
    ensures Dispatch(p) == Dispatch(q)
  {
  }

  /** The values written under ShedulePlan in the configuration document. */
  datatype PlanDocument = PlanDocument(shPlan: string, shTime: string, shHour: Uint64, shMinute: Uint64)

  /** The zero value of the plan struct. */
  const EmptyPlan: Plan := Plan("", "", 0, 0)

  /** The plan as the source decodes it: the four fields are unexported, and
      the YAML decoder only fills exported fields, so the plan keeps its zero
      value whatever the document says. */
  function DecodePlanAsWritten(doc: PlanDocument): (p: Plan)
    ensures Dispatch(p) == None
  {
    EmptyPlan
  }

  /** The plan with each field taken from the document, as the yaml tags on
      the fields intend. */
  function DecodePlan(doc: PlanDocument): Plan {
    Plan(doc.shPlan, doc.shTime, doc.shHour, doc.shMinute)
  }

  /** A document asking for a three-hour interval: decoded as written, no job
      is ever registered; decoded field by field, it registers Hourly(3). */
  lemma AsWrittenDropsHourlyPlan()
    ensures Dispatch(DecodePlanAsWritten(PlanDocument(HourlyPlan, "", 3, 0))) == None
    ensures Dispatch(DecodePlan(PlanDocument(HourlyPlan, "", 3, 0))) == Some(Hourly(3))
  {
  }

  /** With the fields decoded, a document naming a mode registers that mode
      with the document's own value. */
  lemma DecodedPlanDispatch(doc: PlanDocument)
    ensures doc.shPlan == DailyPlan ==> Dispatch(DecodePlan(doc)) == Some(Daily(doc.shTime))
    ensures doc.shPlan == HourlyPlan ==> Dispatch(DecodePlan(doc)) == Some(Hourly(doc.shHour))
    ensures doc.shPlan == MinutelyPlan ==> Dispatch(DecodePlan(doc)) == Some(Minutely(doc.shMinute))
    ensures doc.shPlan !in {DailyPlan, HourlyPlan, MinutelyPlan} ==> Dispatch(DecodePlan(doc)) == None
  {
  }
}

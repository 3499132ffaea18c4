/** The entities the client exchanges with the issue-tracker API (src/types.ts). */
module Types {

  /** An optional value: a missing key, a null, an absent field. */
  datatype Option<+T> = None | Some(value: T)

  /** A user's role is exactly `user` or `admin`. */
  datatype Role = Member | Admin

  datatype User = User(id: string, name: string, email: string, role: Role)

  /** An issue's status is exactly one of three values. */
  datatype Status = Open | InProgress | Resolved

  /** An issue's priority is exactly one of three values. */
  datatype Priority = High | Medium | Low

  /** An assignee is either an embedded user record or a bare identifier string. */
  datatype Assignee = Populated(user: User) | ById(id: string)

  datatype Issue = Issue(
    id: string,
    title: string,
    description: string,
    status: Status,
    priority: Priority,
    assignee: Option<Assignee>,
    createdAt: string)

  /** What a successful login returns: message, token and user always come together. */
  datatype AuthResponse = AuthResponse(message: string, token: string, user: User)

  /** The wire spelling of a role. */
  function RoleName(r: Role): (name: string)
    ensures name == "user" || name == "admin"
    ensures (name == "admin") <==> r == Admin
  {
    match r
    case Member => "user"
    case Admin => "admin"
  }

  /** The wire spelling of a status, as the filters and forms compare it. */
  function StatusName(s: Status): (name: string)
  {
    match s
    case Open => "Open"
    case InProgress => "In-Progress"
    case Resolved => "Resolved"
  }

  /** The status a wire string denotes, if it denotes one. */
  function ParseStatus(name: string): (r: Option<Status>)
    ensures r.Some? <==> name == "Open" || name == "In-Progress" || name == "Resolved"
  {
    if name == "Open" then Some(Open)
    else if name == "In-Progress" then Some(InProgress)
    else if name == "Resolved" then Some(Resolved)
    else None
  }

  /** The wire spelling of a priority. */
  function PriorityName(p: Priority): (name: string)
  {
    match p
    case High => "High"
    case Medium => "Medium"
    case Low => "Low"
  }

  /** The priority a wire string denotes, if it denotes one. */
  function ParsePriority(name: string): (r: Option<Priority>)
    ensures r.Some? <==> name == "High" || name == "Medium" || name == "Low"
  {
    if name == "High" then Some(High)
    else if name == "Medium" then Some(Medium)
    else if name == "Low" then Some(Low)
    else None
  }

  /** Every status has exactly one spelling, and parsing it gives the status back. */
  lemma StatusNameRoundTrip(s: Status, name: string)
    ensures ParseStatus(StatusName(s)) == Some(s)
    ensures ParseStatus(name).Some? ==> StatusName(ParseStatus(name).value) == name
    ensures StatusName(s) != "All"
  {
    match s
    case Open =>
    case InProgress =>
    case Resolved =>
  }

  /** Every priority has exactly one spelling, and parsing it gives the priority back. */
  lemma PriorityNameRoundTrip(p: Priority, name: string)
    ensures ParsePriority(PriorityName(p)) == Some(p)
    ensures ParsePriority(name).Some? ==> PriorityName(ParsePriority(name).value) == name
    ensures PriorityName(p) != "All"
  {
    match p
    case High =>
    case Medium =>
    case Low =>
  }

  /** Two statuses with the same spelling are the same status. */
  lemma StatusNameInjective(s: Status, t: Status)
    ensures StatusName(s) == StatusName(t) <==> s == t
  {
    StatusNameRoundTrip(s, "");
    StatusNameRoundTrip(t, "");
  }

  /** Two priorities with the same spelling are the same priority. */
  lemma PriorityNameInjective(p: Priority, q: Priority)
    ensures PriorityName(p) == PriorityName(q) <==> p == q
  {
    PriorityNameRoundTrip(p, "");
    PriorityNameRoundTrip(q, "");
  }
}

// The virtual-classroom service: classrooms with a teacher, students and
// assistants, collaborative sessions started from a classroom, and the
// session chat. The service keeps classrooms and sessions in maps and
// mutates them in place; a session object is shared between the
// classroom's session list, its current session and the active-session
// map, which the model expresses by keeping every session once in a store
// and referring to it by id everywhere else.
module Classroom {
  import opened Util

  datatype Role = Student | Teacher | Assistant | Moderator | Admin | Observer

  /** The permission enumeration; `Administer` is the ADMIN permission. */
  datatype Permission = View | Interact | Edit | Share | Moderate | Administer

  datatype SessionStatus = Created | Active | Paused | Ended | Cancelled

  /** The string value each role has in the CollaborativeRole enumeration. */
  function RoleName(r: Role): string
  {
    match r
    case Student => "student"
    case Teacher => "teacher"
    case Assistant => "assistant"
    case Moderator => "moderator"
    case Admin => "admin"
    case Observer => "observer"
  }

  function ParseRole(s: string): (r: Option<Role>)
    ensures r.Some? ==> RoleName(r.value) == s
  {
    if s == "student" then Some(Student)
    else if s == "teacher" then Some(Teacher)
    else if s == "assistant" then Some(Assistant)
    else if s == "moderator" then Some(Moderator)
    else if s == "admin" then Some(Admin)
    else if s == "observer" then Some(Observer)
    else None
  }

  /** isValidRole: `s` is one of the values of the role enumeration. */
  predicate IsValidRole(s: string)
  {
    ParseRole(s).Some?
  }

  /** Every role's name is read back as that role. */
  lemma ParseRoleName(r: Role)
    ensures ParseRole(RoleName(r)) == Some(r)
  {
    match r
    case Student =>
    case Teacher =>
    case Assistant =>
    case Moderator =>
    case Admin =>
    case Observer =>
  }

  /** Exactly the names of the roles are valid. */
  lemma IsValidRoleIff(s: string)
    ensures IsValidRole(s) <==> exists r :: RoleName(r) == s
  {
    if IsValidRole(s) {
      assert RoleName(ParseRole(s).value) == s;
    } else if exists r :: RoleName(r) == s {
      var r :| RoleName(r) == s;
      ParseRoleName(r);
    }
  }

  /** The permissions in the order the teacher's list holds them. */
  const AllPermissions: seq<Permission> := [View, Interact, Edit, Share, Moderate, Administer]

  /**
   * getDefaultPermissions: the role table. Each role gets a prefix of the
   * full list, so the lists are nested; roles outside the table (moderator,
   * admin) fall back to view only, like the observer.
   */
  function DefaultPermissions(role: Role): (r: seq<Permission>)
    ensures 1 <= |r| <= |AllPermissions| && r == AllPermissions[..|r|]
    ensures Administer in r <==> role == Teacher
    ensures Moderate in r <==> role == Teacher || role == Assistant
    ensures Interact in r <==> role == Teacher || role == Assistant || role == Student
    ensures role == Student ==> r == [View, Interact]
  {
    match role
    case Teacher => AllPermissions
    case Assistant => [View, Interact, Edit, Share, Moderate]
    case Student => [View, Interact]
    case _ => [View]
  }

  datatype Participant = Participant(
    id: string,
    userId: string,
    username: string,
    displayName: string,
    role: Role,
    permissions: seq<Permission>,
    isOnline: bool,
    lastActiveAt: int,
    joinedAt: int)

  datatype ParticipantStatus = ParticipantStatus(
    isActive: bool,
    isTyping: bool,
    handsRaised: bool,
    lastInteraction: int,
    attentionLevel: real,
    participationScore: real,
    needsHelp: bool)

  datatype SessionParticipant = SessionParticipant(
    id: string,
    userId: string,
    username: string,
    displayName: string,
    role: Role,
    isPresent: bool,
    joinedAt: int,
    currentStatus: ParticipantStatus,
    permissions: seq<Permission>)

  /** A `Partial<SessionParticipant>`: each present field replaces the participant's. */
  datatype ParticipantUpdate = ParticipantUpdate(
    id: Option<string>,
    userId: Option<string>,
    username: Option<string>,
    displayName: Option<string>,
    role: Option<Role>,
    isPresent: Option<bool>,
    joinedAt: Option<int>,
    currentStatus: Option<ParticipantStatus>,
    permissions: Option<seq<Permission>>)

  const NoUpdate := ParticipantUpdate(None, None, None, None, None, None, None, None, None)

  datatype ChatMessage = ChatMessage(
    id: string,
    sessionId: string,
    senderId: string,
    senderName: string,
    senderRole: Role,
    content: string,
    timestamp: int,
    isPrivate: bool,
    recipients: Option<seq<string>>)

  datatype Classroom = Classroom(
    id: string,
    name: string,
    description: string,
    teacherId: string,
    teacher: Participant,
    students: seq<Participant>,
    assistants: seq<Participant>,
    maxStudents: int,
    sessionIds: seq<string>,
    currentSession: Option<string>,
    createdAt: int,
    updatedAt: int)

  datatype Session = Session(
    id: string,
    classroomId: string,
    title: string,
    description: string,
    teacherId: string,
    participants: seq<SessionParticipant>,
    status: SessionStatus,
    startTime: int,
    endTime: Option<int>,
    duration: int,
    chat: seq<ChatMessage>,
    createdAt: int,
    updatedAt: int)

  datatype EventKind = ParticipantJoined | ParticipantLeft | SessionStarted | SessionEnded | ChatMessageSent

  /** An event handed to the registered handlers (its payload is left out). */
  datatype Event = Event(kind: EventKind, classroomId: string, participantId: Option<string>, timestamp: int)

  const DefaultMaxStudents := 30
  const DefaultChatHistory := 1000

  const ClassroomNotFound := "Classroom not found"
  const ClassroomFull := "Classroom is full"
  const SessionNotFound := "Session not found"
  const SenderNotFound := "Sender not found in session"
  const ParticipantNotFound := "Participant not found"

  // ---- pure helpers of the service -------------------------------------

  /** toSessionParticipant: the session view of a classroom member at `now`. */
  function ToSessionParticipant(p: Participant, now: int): (r: SessionParticipant)
    ensures r.id == p.id && r.userId == p.userId && r.role == p.role && r.permissions == p.permissions
    ensures r.isPresent == p.isOnline && r.currentStatus.participationScore == 0.0
  {
    SessionParticipant(p.id, p.userId, p.username, p.displayName, p.role, p.isOnline, now,
      ParticipantStatus(true, false, false, now, 1.0, 0.0, false), p.permissions)
  }

  function ToSessionParticipants(ps: seq<Participant>, now: int): (r: seq<SessionParticipant>)
    ensures |r| == |ps|
  {
    if ps == [] then [] else [ToSessionParticipant(ps[0], now)] + ToSessionParticipants(ps[1..], now)
  }

  lemma {:induction false} ToSessionParticipantsAt(ps: seq<Participant>, now: int)
    ensures forall i :: 0 <= i < |ps| ==> ToSessionParticipants(ps, now)[i] == ToSessionParticipant(ps[i], now)
  {
    if ps != [] {
      ToSessionParticipantsAt(ps[1..], now);
    }
  }

  /** `ps.filter(p => p.id !== id)`. */
  function RemoveById(ps: seq<Participant>, id: string): (r: seq<Participant>)
    ensures |r| <= |ps|
  {
    if ps == [] then []
    else (if ps[0].id == id then [] else [ps[0]]) + RemoveById(ps[1..], id)
  }

  /**
   * Leaving removes exactly the members with that id: nobody with the id
   * remains, everybody else stays, and a list without the id is untouched.
   */
  lemma {:induction false} RemoveByIdFacts(ps: seq<Participant>, id: string)
    ensures forall p :: p in RemoveById(ps, id) <==> p in ps && p.id != id
    ensures (forall i :: 0 <= i < |ps| ==> ps[i].id != id) ==> RemoveById(ps, id) == ps
  {
    if ps != [] {
      RemoveByIdFacts(ps[1..], id);
      var head := if ps[0].id == id then [] else [ps[0]];
      assert RemoveById(ps, id) == head + RemoveById(ps[1..], id);
      assert forall p :: p in ps <==> p == ps[0] || p in ps[1..];
      if forall i :: 0 <= i < |ps| ==> ps[i].id != id {
        assert forall i :: 0 <= i < |ps[1..]| ==> ps[1..][i].id != id;
        assert ps == [ps[0]] + ps[1..];
      }
    }
  }

  /** `participants.find(p => p.userId === userId)`. */
  function FindByUserId(ps: seq<SessionParticipant>, userId: string): (r: Option<SessionParticipant>)
    ensures r.Some? ==> r.value in ps && r.value.userId == userId
  {
    if ps == [] then None
    else if ps[0].userId == userId then Some(ps[0])
    else FindByUserId(ps[1..], userId)
  }

  /** The participant found is the first one with that user id. */
  lemma {:induction false} FindByUserIdFirst(ps: seq<SessionParticipant>, userId: string)
    ensures FindByUserId(ps, userId).Some? ==>
      exists i :: 0 <= i < |ps| && ps[i] == FindByUserId(ps, userId).value
        && forall j :: 0 <= j < i ==> ps[j].userId != userId
  {
    if ps != [] && ps[0].userId != userId && FindByUserId(ps, userId).Some? {
      FindByUserIdFirst(ps[1..], userId);
      var i :| 0 <= i < |ps| - 1 && ps[1..][i] == FindByUserId(ps[1..], userId).value
        && forall j :: 0 <= j < i ==> ps[1..][j].userId != userId;
      assert forall j :: 0 < j < i + 1 ==> ps[j] == ps[1..][j - 1];
    } else if ps != [] && ps[0].userId == userId {
      assert ps[0] == FindByUserId(ps, userId).value;
    }
  }

  lemma {:induction false} FindByUserIdNone(ps: seq<SessionParticipant>, userId: string)
    ensures FindByUserId(ps, userId).None? <==> forall i :: 0 <= i < |ps| ==> ps[i].userId != userId
  {
    if ps != [] {
      FindByUserIdNone(ps[1..], userId);
      if ps[0].userId != userId {
        assert forall i :: 1 <= i < |ps| ==> ps[i] == ps[1..][i - 1];
      }
    }
  }

  /** `participants.findIndex(p => p.id === id)`, -1 when absent. */
  function IndexOfId(ps: seq<SessionParticipant>, id: string): (r: int)
    ensures -1 <= r < |ps|
    ensures r >= 0 ==> ps[r].id == id
  {
    if ps == [] then -1
    else if ps[0].id == id then 0
    else var k := IndexOfId(ps[1..], id); if k < 0 then -1 else k + 1
  }

  lemma {:induction false} IndexOfIdFacts(ps: seq<SessionParticipant>, id: string)
    ensures var r := IndexOfId(ps, id);
      && (r == -1 <==> forall i :: 0 <= i < |ps| ==> ps[i].id != id)
      && (forall i :: 0 <= i < r ==> ps[i].id != id)
  {
    if ps != [] && ps[0].id != id {
      IndexOfIdFacts(ps[1..], id);
      assert forall i :: 1 <= i < |ps| ==> ps[i] == ps[1..][i - 1];
    }
  }

  /** `{ ...p, ...u }` for a partial update of a session participant. */
  function ApplyUpdate(p: SessionParticipant, u: ParticipantUpdate): SessionParticipant
  {
    SessionParticipant(
      u.id.GetOr(p.id), u.userId.GetOr(p.userId), u.username.GetOr(p.username),
      u.displayName.GetOr(p.displayName), u.role.GetOr(p.role), u.isPresent.GetOr(p.isPresent),
      u.joinedAt.GetOr(p.joinedAt), u.currentStatus.GetOr(p.currentStatus), u.permissions.GetOr(p.permissions))
  }

  /** An empty update changes nothing, and applying the same update twice is applying it once. */
  lemma ApplyUpdateLaws(p: SessionParticipant, u: ParticipantUpdate)
    ensures ApplyUpdate(p, NoUpdate) == p
    ensures ApplyUpdate(ApplyUpdate(p, u), u) == ApplyUpdate(p, u)
    ensures u.isPresent.Some? ==> ApplyUpdate(p, u).isPresent == u.isPresent.value
    ensures u.currentStatus.Some? ==> ApplyUpdate(p, u).currentStatus == u.currentStatus.value
    ensures u.currentStatus.None? ==> ApplyUpdate(p, u).currentStatus == p.currentStatus
  {
  }

  /** The message a participant sends; the recipients are kept only for a private one. */
  function NewMessage(id: string, sessionId: string, sender: SessionParticipant, content: string, now: int,
                      isPrivate: bool, recipients: seq<string>): (m: ChatMessage)
    ensures m.senderId == sender.userId && m.senderName == sender.displayName && m.senderRole == sender.role
    ensures m.content == content && m.timestamp == now && m.isPrivate == isPrivate
    ensures m.recipients.Some? <==> isPrivate
  {
    ChatMessage(id, sessionId, sender.userId, sender.displayName, sender.role, content, now,
      isPrivate, if isPrivate then Some(recipients) else None)
  }

  // ---- exported utilities -------------------------------------------------

  /** validateClassroomName: 3 to 100 characters. */
  predicate ValidClassroomName(name: string)
  {
    3 <= |name| <= 100
  }

  /** validateSessionTitle: 1 to 200 characters. */
  predicate ValidSessionTitle(title: string)
  {
    1 <= |title| <= 200
  }

  /**
   * formatDuration: whole hours and left-over minutes from an hour on,
   * whole minutes and left-over seconds from a minute on, seconds below.
   */
  function FormatDuration(ms: int): (r: string)
    ensures |r| >= 2
    ensures ms >= 3600000 <==> r[|r| - 1] == 'm'
  {
    var seconds := ms / 1000;
    var minutes := seconds / 60;
    var hours := minutes / 60;
    if hours > 0 then IntToString(hours) + "h " + IntToString(minutes % 60) + "m"
    else if minutes > 0 then IntToString(minutes) + "m " + IntToString(seconds % 60) + "s"
    else IntToString(seconds) + "s"
  }

  /** Below a minute the text determines the number of whole seconds. */
  lemma FormatDurationSeconds(ms1: int, ms2: int)
    requires 0 <= ms1 < 60000 && 0 <= ms2 < 60000
    ensures FormatDuration(ms1) == FormatDuration(ms2) <==> ms1 / 1000 == ms2 / 1000
  {
    var a, b := ms1 / 1000, ms2 / 1000;
    if FormatDuration(ms1) == FormatDuration(ms2) {
      assert IntToString(a) + "s" == IntToString(b) + "s";
      assert IntToString(a) == (IntToString(a) + "s")[..|IntToString(a) + "s"| - 1];
      assert IntToString(b) == (IntToString(b) + "s")[..|IntToString(b) + "s"| - 1];
      IntToStringInjective(a, b);
    }
  }

  function ParticipationScores(ps: seq<SessionParticipant>): (r: seq<real>)
    ensures |r| == |ps|
  {
    if ps == [] then [] else [ps[0].currentStatus.participationScore] + ParticipationScores(ps[1..])
  }

  /** calculateEngagementScore: the mean participation score, 0 without participants. */
  function EngagementScore(ps: seq<SessionParticipant>): real
  {
    MeanOrZero(ParticipationScores(ps))
  }

  lemma {:induction false} ParticipationScoresAt(ps: seq<SessionParticipant>)
    ensures forall i :: 0 <= i < |ps| ==> ParticipationScores(ps)[i] == ps[i].currentStatus.participationScore
  {
    if ps != [] {
      ParticipationScoresAt(ps[1..]);
    }
  }

  /** The engagement score lies between the lowest and highest participation scores. */
  lemma EngagementScoreBounds(ps: seq<SessionParticipant>, lo: real, hi: real)
    requires forall i :: 0 <= i < |ps| ==> lo <= ps[i].currentStatus.participationScore <= hi
    ensures ps == [] ==> EngagementScore(ps) == 0.0
    ensures ps != [] ==> lo <= EngagementScore(ps) <= hi
  {
    ParticipationScoresAt(ps);
    if ps != [] {
      MeanOrZeroBounds(ParticipationScores(ps), lo, hi);
    }
  }

  // ---- the service ------------------------------------------------------

  /** Students never exceed the capacity (an empty list is fine whatever the setting). */
  predicate WithinCapacity(c: Classroom)
  {
    |c.students| <= c.maxStudents || c.students == []
  }

  predicate ChatWithinLimit(s: Session, limit: int)
  {
    limit >= 1 ==> |s.chat| <= limit
  }

  /**
   * The table invariant: maps are keyed by their objects' ids, every
   * active session is stored, no classroom is over capacity and no
   * session chat is over the history limit.
   */
  predicate TablesValid(classrooms: map<string, Classroom>, sessions: map<string, Session>, active: set<string>, chatHistory: int)
  {
    && (forall k :: k in classrooms ==> classrooms[k].id == k && WithinCapacity(classrooms[k]))
    && (forall k :: k in sessions ==> sessions[k].id == k && ChatWithinLimit(sessions[k], chatHistory))
    && active <= sessions.Keys
  }

  lemma StoreClassroom(classrooms: map<string, Classroom>, sessions: map<string, Session>, active: set<string>, h: int, c: Classroom)
    requires TablesValid(classrooms, sessions, active, h)
    requires WithinCapacity(c)
    ensures TablesValid(classrooms[c.id := c], sessions, active, h)
  {
  }

  lemma StoreSession(classrooms: map<string, Classroom>, sessions: map<string, Session>, active: set<string>, h: int, s: Session)
    requires TablesValid(classrooms, sessions, active, h)
    requires ChatWithinLimit(s, h)
    ensures TablesValid(classrooms, sessions[s.id := s], active, h)
    ensures TablesValid(classrooms, sessions[s.id := s], active + {s.id}, h)
  {
  }

  class ClassroomService {
    /** config.chatHistory */
    const chatHistory: int
    var classrooms: map<string, Classroom>
    /** Every session object ever started, by id. */
    var sessions: map<string, Session>
    /** The keys of activeSessions. */
    var active: set<string>
    var currentUser: Option<Participant>
    /** The events emitted to the handlers, oldest first. */
    var events: seq<Event>

    /** The table invariant, see TablesValid. */
    predicate Valid()
      reads this
    {
      TablesValid(classrooms, sessions, active, chatHistory)
    }

    constructor(chatHistory: Option<int>)
      ensures this.chatHistory == chatHistory.GetOr(DefaultChatHistory)
      ensures classrooms == map[] && sessions == map[] && active == {}
      ensures currentUser == None && events == []
      ensures Valid()
    {
      this.chatHistory := chatHistory.GetOr(DefaultChatHistory);
      classrooms, sessions, active := map[], map[], {};
      currentUser, events := None, [];
    }

    /**
     * createClassroom: a classroom with no members besides the teacher,
     * who holds every permission; the capacity is the default unless the
     * settings give one.
     */
    method CreateClassroom(classroomId: string, teacherParticipantId: string, name: string, description: string,
                           teacherId: string, maxStudents: Option<int>, now: int) returns (c: Classroom)
      requires Valid()
      modifies this
      ensures Valid()
      ensures c.id == classroomId && c.name == name && c.teacherId == teacherId
      ensures c.teacher.userId == teacherId && c.teacher.role == Teacher && c.teacher.permissions == AllPermissions
      ensures c.students == [] && c.assistants == [] && c.sessionIds == [] && c.currentSession == None
      ensures c.maxStudents == maxStudents.GetOr(DefaultMaxStudents)
      ensures classrooms == old(classrooms)[classroomId := c]
      ensures sessions == old(sessions) && active == old(active)
      ensures currentUser == old(currentUser) && events == old(events)
    {
      var teacher := Participant(teacherParticipantId, teacherId, "teacher_" + teacherId, "Enseignant",
        Teacher, AllPermissions, true, now, now);
      c := Classroom(classroomId, name, description, teacherId, teacher, [], [],
        maxStudents.GetOr(DefaultMaxStudents), [], None, now, now);
      classrooms := classrooms[classroomId := c];
    }

    /**
     * joinClassroom: an unknown classroom and a student joining a full
     * classroom are refused without any change. A student is appended to
     * the students, an assistant to the assistants, any other role to
     * neither; the new member becomes the current user either way.
     */
    method JoinClassroom(classroomId: string, participantId: string, userId: string, username: string,
                         displayName: string, role: Role, now: int) returns (r: Result<Participant>)
      requires Valid()
      modifies this
      ensures Valid()
      ensures r.Ok? <==>
        classroomId in old(classrooms)
        && !(role == Student && |old(classrooms)[classroomId].students| >= old(classrooms)[classroomId].maxStudents)
      ensures classroomId !in old(classrooms) ==> r == Err(ClassroomNotFound)
      ensures classroomId in old(classrooms) && role == Student && |old(classrooms)[classroomId].students| >= old(classrooms)[classroomId].maxStudents
        ==> r == Err(ClassroomFull)
      ensures r.Err? ==> classrooms == old(classrooms) && currentUser == old(currentUser) && events == old(events)
      ensures r.Ok? ==>
        var c := old(classrooms)[classroomId];
        var p := r.value;
        && classroomId in old(classrooms)
        && (role == Student ==> |c.students| < c.maxStudents)
        && p == Participant(participantId, userId, username, displayName, role, DefaultPermissions(role), true, now, now)
        && classrooms == old(classrooms)[classroomId := c.(
             students := if role == Student then c.students + [p] else c.students,
             assistants := if role == Assistant then c.assistants + [p] else c.assistants,
             updatedAt := now)]
        && currentUser == Some(p)
        && events == old(events) + [Event(ParticipantJoined, classroomId, Some(participantId), now)]
      ensures sessions == old(sessions) && active == old(active)
    {
      if classroomId !in classrooms {
        return Err(ClassroomNotFound);
      }
      var c := classrooms[classroomId];
      if |c.students| >= c.maxStudents && role == Student {
        return Err(ClassroomFull);
      }
      var p := Participant(participantId, userId, username, displayName, role, DefaultPermissions(role), true, now, now);
      var students := if role == Student then c.students + [p] else c.students;
      var assistants := if role == Assistant then c.assistants + [p] else c.assistants;
      classrooms := classrooms[classroomId := c.(students := students, assistants := assistants, updatedAt := now)];
      currentUser := Some(p);
      events := events + [Event(ParticipantJoined, classroomId, Some(participantId), now)];
      return Ok(p);
    }

    /** leaveClassroom: drops the participant id from the students and from the assistants. */
    method LeaveClassroom(classroomId: string, participantId: string, now: int) returns (r: Result<()>)
      requires Valid()
      modifies this
      ensures Valid()
      ensures r.Err? <==> classroomId !in old(classrooms)
      ensures r.Err? ==> r.msg == ClassroomNotFound && classrooms == old(classrooms) && events == old(events)
      ensures r.Ok? ==>
        var c := old(classrooms)[classroomId];
        && classrooms == old(classrooms)[classroomId := c.(
             students := RemoveById(c.students, participantId),
             assistants := RemoveById(c.assistants, participantId),
             updatedAt := now)]
        && events == old(events) + [Event(ParticipantLeft, classroomId, Some(participantId), now)]
      ensures sessions == old(sessions) && active == old(active) && currentUser == old(currentUser)
    {
      if classroomId !in classrooms {
        return Err(ClassroomNotFound);
      }
      var c := classrooms[classroomId];
      classrooms := classrooms[classroomId := c.(
        students := RemoveById(c.students, participantId),
        assistants := RemoveById(c.assistants, participantId),
        updatedAt := now)];
      events := events + [Event(ParticipantLeft, classroomId, Some(participantId), now)];
      return Ok(());
    }

    /**
     * startSession: an active session whose participants are the teacher,
     * then the students, then the assistants; it becomes the classroom's
     * current session, is appended to its sessions and is registered as
     * active. The session id comes from the id generator and is fresh.
     */
    method StartSession(classroomId: string, sessionId: string, title: string, description: string, now: int)
      returns (r: Result<Session>)
      requires Valid()
      requires sessionId !in sessions
      modifies this
      ensures Valid()
      ensures r.Err? <==> classroomId !in old(classrooms)
      ensures r.Err? ==>
        r.msg == ClassroomNotFound && classrooms == old(classrooms) && sessions == old(sessions)
        && active == old(active) && events == old(events)
      ensures r.Ok? ==>
        var c := old(classrooms)[classroomId];
        var s := r.value;
        && s.id == sessionId && s.classroomId == classroomId && s.teacherId == c.teacherId
        && s.title == title && s.description == description
        && s.participants == ToSessionParticipants([c.teacher] + c.students + c.assistants, now)
        && s.status == Active && s.startTime == now && s.endTime == None && s.duration == 0 && s.chat == []
        && classrooms == old(classrooms)[classroomId := c.(currentSession := Some(sessionId), sessionIds := c.sessionIds + [sessionId])]
        && sessions == old(sessions)[sessionId := s]
        && active == old(active) + {sessionId}
        && events == old(events) + [Event(SessionStarted, classroomId, Some(c.teacherId), now)]
      ensures currentUser == old(currentUser)
    {
      if classroomId !in classrooms {
        return Err(ClassroomNotFound);
      }
      var c := classrooms[classroomId];
      var everyone := [c.teacher] + c.students + c.assistants;
      var s := Session(sessionId, classroomId, title, description, c.teacherId, ToSessionParticipants(everyone, now),
        Active, now, None, 0, [], now, now);
      classrooms := classrooms[classroomId := c.(currentSession := Some(sessionId), sessionIds := c.sessionIds + [sessionId])];
      sessions := sessions[sessionId := s];
      active := active + {sessionId};
      events := events + [Event(SessionStarted, classroomId, Some(c.teacherId), now)];
      return Ok(s);
    }

    /**
     * endSession: an unknown or inactive session, or one whose classroom
     * is gone, is refused without change. Otherwise the session is ended
     * with its duration, leaves the active set, and its classroom has no
     * current session any more (whichever session that was).
     */
    method EndSession(sessionId: string, now: int) returns (r: Result<()>)
      requires Valid()
      modifies this
      ensures Valid()
      ensures r.Ok? <==> sessionId in old(active) && old(sessions)[sessionId].classroomId in old(classrooms)
      ensures sessionId !in old(active) ==> r == Err(SessionNotFound)
      ensures sessionId in old(active) && old(sessions)[sessionId].classroomId !in old(classrooms) ==> r == Err(ClassroomNotFound)
      ensures r.Err? ==> classrooms == old(classrooms) && sessions == old(sessions) && active == old(active) && events == old(events)
      ensures r.Ok? ==>
        var s := old(sessions)[sessionId];
        var c := old(classrooms)[s.classroomId];
        && sessionId in old(active) && s.classroomId in old(classrooms)
        && sessions == old(sessions)[sessionId := s.(status := Ended, endTime := Some(now), duration := now - s.startTime, updatedAt := now)]
        && classrooms == old(classrooms)[s.classroomId := c.(currentSession := None)]
        && active == old(active) - {sessionId}
        && events == old(events) + [Event(SessionEnded, s.classroomId, Some(s.teacherId), now)]
      ensures currentUser == old(currentUser)
    {
      if sessionId !in active {
        return Err(SessionNotFound);
      }
      var s := sessions[sessionId];
      if s.classroomId !in classrooms {
        return Err(ClassroomNotFound);
      }
      var c := classrooms[s.classroomId];
      sessions := sessions[sessionId := s.(status := Ended, endTime := Some(now), duration := now - s.startTime, updatedAt := now)];
      classrooms := classrooms[s.classroomId := c.(currentSession := None)];
      active := active - {sessionId};
      events := events + [Event(SessionEnded, s.classroomId, Some(s.teacherId), now)];
      return Ok(());
    }

    /**
     * sendChatMessage: the sender must be a participant of the active
     * session (looked up by user id). The message is appended and the chat
     * cut back to the history limit; recipients are kept only for a
     * private message.
     */
    method SendChatMessage(sessionId: string, messageId: string, senderId: string, content: string,
                           isPrivate: bool, recipients: seq<string>, now: int) returns (r: Result<ChatMessage>)
      requires Valid()
      modifies this
      ensures Valid()
      ensures r.Ok? <==> sessionId in old(active) && FindByUserId(old(sessions)[sessionId].participants, senderId).Some?
      ensures sessionId !in old(active) ==> r == Err(SessionNotFound)
      ensures sessionId in old(active) && FindByUserId(old(sessions)[sessionId].participants, senderId).None? ==> r == Err(SenderNotFound)
      ensures r.Err? ==> sessions == old(sessions) && events == old(events)
      ensures r.Ok? ==>
        var s := old(sessions)[sessionId];
        var m := r.value;
        && sessionId in old(active)
        && FindByUserId(s.participants, senderId).Some?
        && m == NewMessage(messageId, sessionId, FindByUserId(s.participants, senderId).value, content, now, isPrivate, recipients)
        && sessions == old(sessions)[sessionId := s.(chat := KeepNewest(s.chat + [m], chatHistory), updatedAt := now)]
        && events == old(events) + [Event(ChatMessageSent, s.classroomId, Some(senderId), now)]
      ensures classrooms == old(classrooms) && active == old(active) && currentUser == old(currentUser)
    {
      if sessionId !in active {
        return Err(SessionNotFound);
      }
      var s := sessions[sessionId];
      var sender := FindByUserId(s.participants, senderId);
      if sender.None? {
        return Err(SenderNotFound);
      }
      var m := NewMessage(messageId, sessionId, sender.value, content, now, isPrivate, recipients);
      var chat := KeepNewest(s.chat + [m], chatHistory);
      KeepNewestBound(s.chat + [m], chatHistory);
      var updated := s.(chat := chat, updatedAt := now);
      StoreSession(classrooms, sessions, active, chatHistory, updated);
      sessions := sessions[sessionId := updated];
      events := events + [Event(ChatMessageSent, s.classroomId, Some(senderId), now)];
      return Ok(m);
    }

    /**
     * updateParticipantStatus: the first participant with that id in the
     * active session gets the partial update; the rest are untouched.
     */
    method UpdateParticipantStatus(sessionId: string, participantId: string, update: ParticipantUpdate, now: int)
      returns (r: Result<()>)
      requires Valid()
      modifies this
      ensures Valid()
      ensures r.Ok? <==> sessionId in old(active) && IndexOfId(old(sessions)[sessionId].participants, participantId) != -1
      ensures sessionId !in old(active) ==> r == Err(SessionNotFound)
      ensures sessionId in old(active) && IndexOfId(old(sessions)[sessionId].participants, participantId) == -1
        ==> r == Err(ParticipantNotFound)
      ensures r.Err? ==> sessions == old(sessions)
      ensures r.Ok? ==>
        var s := old(sessions)[sessionId];
        var i := IndexOfId(s.participants, participantId);
        && sessionId in old(active) && 0 <= i
        && sessions == old(sessions)[sessionId := s.(
             participants := s.participants[i := ApplyUpdate(s.participants[i], update)], updatedAt := now)]
      ensures classrooms == old(classrooms) && active == old(active) && currentUser == old(currentUser) && events == old(events)
    {
      if sessionId !in active {
        return Err(SessionNotFound);
      }
      var s := sessions[sessionId];
      var i := IndexOfId(s.participants, participantId);
      if i == -1 {
        return Err(ParticipantNotFound);
      }
      sessions := sessions[sessionId := s.(participants := s.participants[i := ApplyUpdate(s.participants[i], update)], updatedAt := now)];
      return Ok(());
    }
  }
}

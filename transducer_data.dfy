/**
 * iC3_TransducerData.cpp: one access-log record with nine fields, its three
 * constructors, assignment, the field setters, and the two display mappings
 * getUser and getAccessMethod. The access-event and access-method
 * enumerations are declared in a header outside this model, so each is an
 * abstract datatype naming the enumerators the switches use and a case for
 * every other value.
 */
module Transducer {

  datatype AccessEvent =
    | AccessEventUnknown
    | NormalAccess
    | DeniedAccess
    | OverrideAccess
    | OtherAccessEvent(code: int)

  datatype AccessMethod =
    | AccessMethodUnknown
    | Pin
    | Key
    | ProxCard
    | MagneticSwipe
    | TestFunctionality
    | OtherAccessMethod(code: int)

  /** A QDate: null, or a day number. */
  datatype Date = NullDate | JulianDay(day: int)

  /** A QTime: null, or milliseconds since midnight. */
  datatype Time = NullTime | TimeOfDay(msecs: int)

  /** quint32. */
  newtype uint32 = x: int | 0 <= x < 0x1_0000_0000

  /** The nine fields of a record. */
  datatype Fields = Fields(
    downloaded: bool,
    viewed: bool,
    accessEvent: AccessEvent,
    user: string,
    accessDate: Date,
    accessTime: Time,
    durationMinutes: int,
    accessMethod: AccessMethod,
    eventSequenceIndex: uint32)

  /** One second past midnight, the default constructor's time. */
  const OneSecondPastMidnight: Time := TimeOfDay(1000)

  /** getUser: the stored user only for a normal access. */
  function UserDisplay(accessEvent: AccessEvent, user: string): (shown: string)
    ensures accessEvent == NormalAccess ==> shown == user
    ensures accessEvent != NormalAccess ==> shown in {"Denied", "Override", ""}
    ensures shown == "Denied" <==> accessEvent == DeniedAccess || (accessEvent == NormalAccess && user == "Denied")
    ensures shown == "Override" <==> accessEvent == OverrideAccess || (accessEvent == NormalAccess && user == "Override")
  {
    match accessEvent
    case NormalAccess => user
    case DeniedAccess => "Denied"
    case OverrideAccess => "Override"
    case _ => ""
  }

  /** A user name that is not one of the fixed texts is shown exactly for a normal access. */
  lemma UserShownOnlyForNormalAccess(accessEvent: AccessEvent, user: string)
    requires user !in {"", "Denied", "Override"}
    ensures UserDisplay(accessEvent, user) == user <==> accessEvent == NormalAccess
  {
  }

  predicate IsNamedMethod(m: AccessMethod) {
    m.Pin? || m.Key? || m.ProxCard? || m.MagneticSwipe? || m.TestFunctionality?
  }

  /** getAccessMethod. */
  function AccessMethodLabel(m: AccessMethod): (name: string)
    ensures name == "" <==> !IsNamedMethod(m)
  {
    match m
    case Pin => "PIN"
    case Key => "Key"
    case ProxCard => "Prox Card"
    case MagneticSwipe => "Magnetic Swipe"
    case TestFunctionality => "Tech Override"
    case _ => ""
  }

  /** The five labels are pairwise distinct, so a label names its method. */
  lemma AccessMethodLabelsDistinct(a: AccessMethod, b: AccessMethod)
    requires IsNamedMethod(a) && IsNamedMethod(b)
    ensures AccessMethodLabel(a) == AccessMethodLabel(b) <==> a == b
  {
  }

  class TransducerData {
    var downloaded: bool
    var viewed: bool
    var accessEvent: AccessEvent
    var user: string
    var accessDate: Date
    var accessTime: Time
    var durationMinutes: int
    var accessMethod: AccessMethod
    var eventSequenceIndex: uint32

    ghost function Snapshot(): Fields
      reads this
    {
      Fields(downloaded, viewed, accessEvent, user, accessDate, accessTime, durationMinutes,
             accessMethod, eventSequenceIndex)
    }

    /** The default constructor. Its QDate::fromJulianDay(0) call discards its result, so the
        date stays null. */
    constructor ()
      ensures Snapshot() == Fields(false, false, AccessEventUnknown, "", NullDate, OneSecondPastMidnight,
                                   0, AccessMethodUnknown, 0)
    {
      downloaded := false;
      viewed := false;
      accessEvent := AccessEventUnknown;
      durationMinutes := 0;
      accessMethod := AccessMethodUnknown;
      eventSequenceIndex := 0;
      user := "";
      accessDate := NullDate;
      accessTime := OneSecondPastMidnight;
    }

    /** The constructor with every field but the two flags, which start false. */
    constructor Create(sequenceIndex: uint32, event: AccessEvent, userId: string, date: Date, time: Time,
                       duration: int, accessMethodValue: AccessMethod)
      ensures Snapshot() == Fields(false, false, event, userId, date, time, duration, accessMethodValue, sequenceIndex)
    {
      eventSequenceIndex := sequenceIndex;
      user := userId;
      accessDate := date;
      accessTime := time;
      durationMinutes := duration;
      accessMethod := accessMethodValue;
      downloaded := false;
      viewed := false;
      accessEvent := event;
    }

    /** The copy constructor. */
    constructor Copy(source: TransducerData)
      ensures Snapshot() == source.Snapshot()
    {
      downloaded := source.downloaded;
      viewed := source.viewed;
      accessEvent := source.accessEvent;
      user := source.user;
      accessDate := source.accessDate;
      accessTime := source.accessTime;
      durationMinutes := source.durationMinutes;
      accessMethod := source.accessMethod;
      eventSequenceIndex := source.eventSequenceIndex;
    }

    /** operator=: copies every field of source and returns this record. */
    method Assign(source: TransducerData) returns (self: TransducerData)
      modifies this
      ensures Snapshot() == old(source.Snapshot())
      ensures self == this
    {
      downloaded := source.downloaded;
      viewed := source.viewed;
      accessEvent := source.accessEvent;
      user := source.user;
      accessDate := source.accessDate;
      accessTime := source.accessTime;
      durationMinutes := source.durationMinutes;
      accessMethod := source.accessMethod;
      eventSequenceIndex := source.eventSequenceIndex;
      self := this;
    }

    function GetAccessEvent(): AccessEvent reads this { accessEvent }
    function GetUser(): string reads this { UserDisplay(accessEvent, user) }
    function GetAccessDate(): Date reads this { accessDate }
    function GetAccessTime(): Time reads this { accessTime }
    function GetDurationMinutes(): int reads this { durationMinutes }
    function GetIntDurationMinutes(): int reads this { durationMinutes }
    function GetAccessMethodEnum(): AccessMethod reads this { accessMethod }
    function GetAccessMethod(): string reads this { AccessMethodLabel(accessMethod) }
    function GetEventSequenceIndex(): uint32 reads this { eventSequenceIndex }
    function GetAccessEventViewed(): bool reads this { viewed }
    function GetAccessEventDownloaded(): bool reads this { downloaded }

    method SetAccessEvent(event: AccessEvent)
      modifies this
      ensures GetAccessEvent() == event
      ensures Snapshot() == old(Snapshot()).(accessEvent := event)
    {
      accessEvent := event;
    }

    method SetUser(userId: string)
      modifies this
      ensures user == userId && GetUser() == UserDisplay(GetAccessEvent(), userId)
      ensures Snapshot() == old(Snapshot()).(user := userId)
    {
      user := userId;
    }

    method SetAccessDate(date: Date)
      modifies this
      ensures GetAccessDate() == date
      ensures Snapshot() == old(Snapshot()).(accessDate := date)
    {
      accessDate := date;
    }

    method SetAccessTime(time: Time)
      modifies this
      ensures GetAccessTime() == time
      ensures Snapshot() == old(Snapshot()).(accessTime := time)
    {
      accessTime := time;
    }

    method SetDurationMinutes(minutes: int)
      modifies this
      ensures GetDurationMinutes() == minutes && GetIntDurationMinutes() == minutes
      ensures Snapshot() == old(Snapshot()).(durationMinutes := minutes)
    {
      durationMinutes := minutes;
    }

    method SetAccessMethod(accessMethodValue: AccessMethod)
      modifies this
      ensures GetAccessMethodEnum() == accessMethodValue && GetAccessMethod() == AccessMethodLabel(accessMethodValue)
      ensures Snapshot() == old(Snapshot()).(accessMethod := accessMethodValue)
    {
      accessMethod := accessMethodValue;
    }

    method SetEventSequenceIndex(index: uint32)
      modifies this
      ensures GetEventSequenceIndex() == index
      ensures Snapshot() == old(Snapshot()).(eventSequenceIndex := index)
    {
      eventSequenceIndex := index;
    }

    method SetAccessEventViewed(isViewed: bool)
      modifies this
      ensures GetAccessEventViewed() == isViewed
      ensures Snapshot() == old(Snapshot()).(viewed := isViewed)
    {
      viewed := isViewed;
    }

    method SetAccessEventDownloaded(isDownloaded: bool)
      modifies this
      ensures GetAccessEventDownloaded() == isDownloaded
      ensures Snapshot() == old(Snapshot()).(downloaded := isDownloaded)
    {
      downloaded := isDownloaded;
    }
  }

  /** Copies are independent: changing the copy leaves the original as it was. */
  method CopyIsIndependent(original: TransducerData) returns (copy: TransducerData)
    ensures copy != original
    ensures original.Snapshot() == old(original.Snapshot())
    ensures copy.Snapshot() == original.Snapshot().(user := "someone else")
  {
    copy := new TransducerData.Copy(original);
    copy.SetUser("someone else");
  }
}

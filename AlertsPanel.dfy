/**
  The alert inbox: a list of notifications that can be marked read one at a
  time or all at once, or deleted by id, with a count of the unread ones.
 */
module AlertsPanel {
  import opened Seqs

  datatype AlertType = Surplus | RedistributionAlert | SystemAlert
  datatype Priority = HighPriority | MediumPriority | LowPriority

  datatype Alert = Alert(
    id: string,
    alertType: AlertType,
    title: string,
    message: string,
    timestamp: string,
    isRead: bool,
    priority: Priority)

  predicate IsUnread(a: Alert)
  {
    !a.isRead
  }

  function ReadIfId(id: string): Alert -> Alert
  {
    (a: Alert) => if a.id == id then a.(isRead := true) else a
  }

  function Read(a: Alert): Alert
  {
    a.(isRead := true)
  }

  function OtherId(id: string): Alert -> bool
  {
    (a: Alert) => a.id != id
  }

  function HasId(id: string): Alert -> bool
  {
    (a: Alert) => a.id == id
  }

  /** `prev.map(alert => alert.id === id ? { ...alert, isRead: true } : alert)`. */
  function MarkAsRead(alerts: seq<Alert>, id: string): seq<Alert>
  {
    Map(alerts, ReadIfId(id))
  }

  /** `prev.map(alert => ({ ...alert, isRead: true }))`. */
  function MarkAllAsRead(alerts: seq<Alert>): seq<Alert>
  {
    Map(alerts, Read)
  }

  /** `prev.filter(alert => alert.id !== id)`. */
  function DeleteAlert(alerts: seq<Alert>, id: string): seq<Alert>
  {
    Filter(alerts, OtherId(id))
  }

  /** `alerts.filter(alert => !alert.isRead).length`. */
  function UnreadCount(alerts: seq<Alert>): nat
  {
    |Filter(alerts, IsUnread)|
  }

  /** The "Mark all as read" button (and the unread badge) is rendered. */
  predicate MarkAllShown(alerts: seq<Alert>)
  {
    UnreadCount(alerts) > 0
  }

  /** The "No notifications" card is rendered. */
  predicate EmptyStateShown(alerts: seq<Alert>)
  {
    |alerts| == 0
  }

  /** Marking one id read sets `isRead` on the alerts with that id and changes nothing else. */
  lemma MarkAsReadEffect(alerts: seq<Alert>, id: string)
    ensures |MarkAsRead(alerts, id)| == |alerts|
    ensures forall i :: 0 <= i < |alerts| && alerts[i].id == id ==> MarkAsRead(alerts, id)[i] == alerts[i].(isRead := true)
    ensures forall i :: 0 <= i < |alerts| && alerts[i].id != id ==> MarkAsRead(alerts, id)[i] == alerts[i]
  {
  }

  lemma MarkAsReadIdempotent(alerts: seq<Alert>, id: string)
    ensures MarkAsRead(MarkAsRead(alerts, id), id) == MarkAsRead(alerts, id)
  {
  }

  /**
    Marking read never adds unread alerts, and it removes at least one when
    an unread alert with that id exists.
   */
  lemma MarkAsReadLowersUnread(alerts: seq<Alert>, id: string)
    ensures UnreadCount(MarkAsRead(alerts, id)) <= UnreadCount(alerts)
    ensures (exists i :: 0 <= i < |alerts| && alerts[i].id == id && !alerts[i].isRead) ==>
              UnreadCount(MarkAsRead(alerts, id)) < UnreadCount(alerts)
  {
    FilterOfMapCount(alerts, ReadIfId(id), IsUnread, IsUnread);
    if exists i :: 0 <= i < |alerts| && alerts[i].id == id && !alerts[i].isRead {
      var i :| 0 <= i < |alerts| && alerts[i].id == id && !alerts[i].isRead;
      assert IsUnread(alerts[i]) && !IsUnread(ReadIfId(id)(alerts[i]));
    }
  }

  /** Marking all read keeps every other field and leaves nothing unread. */
  lemma MarkAllAsReadEffect(alerts: seq<Alert>)
    ensures |MarkAllAsRead(alerts)| == |alerts|
    ensures forall i :: 0 <= i < |alerts| ==> MarkAllAsRead(alerts)[i] == alerts[i].(isRead := true)
    ensures UnreadCount(MarkAllAsRead(alerts)) == 0
    ensures !MarkAllShown(MarkAllAsRead(alerts))
  {
    var m := MarkAllAsRead(alerts);
    forall i | 0 <= i < |m| ensures m[i] == alerts[i].(isRead := true) && !IsUnread(m[i]) {
      assert m[i] == Read(alerts[i]);
    }
    FilterNonePass(m, IsUnread);
  }

  /**
    Deleting removes exactly the alerts with that id and keeps the others in
    order; the list shrinks by the number of alerts with that id.
   */
  lemma DeleteAlertEffect(alerts: seq<Alert>, id: string)
    ensures forall a :: a in DeleteAlert(alerts, id) <==> a in alerts && a.id != id
    ensures IsSubsequence(DeleteAlert(alerts, id), alerts)
    ensures |DeleteAlert(alerts, id)| + |Filter(alerts, HasId(id))| == |alerts|
  {
    FilterIsSubsequence(alerts, OtherId(id));
    FilterComplementCount(alerts, HasId(id), OtherId(id));
    DeleteAlertMembers(alerts, id);
  }

  lemma DeleteAlertMembers(alerts: seq<Alert>, id: string)
    ensures forall a :: a in DeleteAlert(alerts, id) <==> a in alerts && a.id != id
  {
    var d := DeleteAlert(alerts, id);
    forall a | a in alerts && a.id != id ensures a in d {
      var i :| 0 <= i < |alerts| && alerts[i] == a;
      assert OtherId(id)(alerts[i]);
    }
    forall a | a in d ensures a in alerts && a.id != id {
      var i :| 0 <= i < |d| && d[i] == a;
      assert OtherId(id)(d[i]);
    }
  }

  /** Deleting an id no alert has changes nothing. */
  lemma DeleteAbsentIsNoOp(alerts: seq<Alert>, id: string)
    requires forall i :: 0 <= i < |alerts| ==> alerts[i].id != id
    ensures DeleteAlert(alerts, id) == alerts
  {
    FilterAllPass(alerts, OtherId(id));
  }

  /** The unread count never exceeds the number of alerts, so "Mark all as read" never shows on an empty inbox. */
  lemma UnreadCountBounded(alerts: seq<Alert>)
    ensures UnreadCount(alerts) <= |alerts|
    ensures UnreadCount(alerts) == 0 <==> forall i :: 0 <= i < |alerts| ==> alerts[i].isRead
    ensures MarkAllShown(alerts) ==> !EmptyStateShown(alerts)
  {
    if forall i :: 0 <= i < |alerts| ==> alerts[i].isRead {
      FilterNonePass(alerts, IsUnread);
    } else {
      var i :| 0 <= i < |alerts| && !alerts[i].isRead;
      assert alerts[i] in Filter(alerts, IsUnread);
    }
  }

  /** The inbox: the one piece of state the panel owns. */
  class AlertsPanelState {
    var alerts: seq<Alert>

    constructor (initial: seq<Alert>)
      ensures alerts == initial
    {
      alerts := initial;
    }

    function Unread(): nat
      reads this
    {
      UnreadCount(alerts)
    }

    method MarkOneAsRead(id: string)
      modifies this
      ensures alerts == MarkAsRead(old(alerts), id)
      ensures Unread() <= old(Unread())
    {
      MarkAsReadLowersUnread(alerts, id);
      alerts := MarkAsRead(alerts, id);
    }

    method MarkEveryAsRead()
      modifies this
      ensures alerts == MarkAllAsRead(old(alerts))
      ensures Unread() == 0
    {
      MarkAllAsReadEffect(alerts);
      alerts := MarkAllAsRead(alerts);
    }

    method Delete(id: string)
      modifies this
      ensures alerts == DeleteAlert(old(alerts), id)
      ensures |alerts| <= |old(alerts)|
    {
      alerts := DeleteAlert(alerts, id);
    }
  }
}

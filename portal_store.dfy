/** The client-portal store: the signed-in client, the status of each connected platform, the
    progress metrics and a newest-first list of notifications. */
module PortalStore {
  import opened Common

  datatype ProgramPersona = StartupSam | ScalingSarah | LearningLarry | InvestorIan | ProviderPriya

  datatype ServiceProgram = ServiceProgram(
    id: string, name: string, persona: ProgramPersona, description: string, color: string,
    icon: string, features: seq<string>)

  datatype ClientStatus = ActiveClient | AtRisk | Completed | PausedClient

  datatype Client = Client(
    id: string, name: string, email: string, program: ServiceProgram, enrollmentDate: string,
    status: ClientStatus, progressScore: int, lastActivity: string)

  datatype IntegrationPlatform = ClickUp | Teachable | Calendly | Slack | Analytics
  datatype IntegrationStatus = Connected | Disconnected | IntegrationError

  /** An integration; its untyped `data` payload is not modelled. */
  datatype Integration = Integration(platform: IntegrationPlatform, status: IntegrationStatus, lastSync: string)

  datatype ProgressMetrics = ProgressMetrics(
    clickupCompletion: real, courseProgress: real, sessionAttendance: real,
    communityEngagement: real, resourceUsage: real, overallScore: real)

  datatype NotificationType = TaskNote | CourseNote | SessionNote | CommunityNote | AchievementNote

  datatype Notification = Notification(
    id: string, kind: NotificationType, title: string, message: string, timestamp: string,
    read: bool, actionUrl: Option<string>)

  function WithRead(notifications: seq<Notification>, id: string): (r: seq<Notification>)
    ensures |r| == |notifications|
    ensures forall i :: 0 <= i < |r| && notifications[i].id == id ==> r[i] == notifications[i].(read := true)
    ensures forall i :: 0 <= i < |r| && notifications[i].id != id ==> r[i] == notifications[i]
  {
    MapWhere(notifications, (n: Notification) => n.id == id, (n: Notification) => n.(read := true))
  }

  predicate Unread(n: Notification)
  {
    !n.read
  }

  function UnreadCount(notifications: seq<Notification>): nat
  {
    Count(notifications, Unread)
  }

  /** Marking a notification read twice is marking it once, and no notification that was read
      becomes unread. */
  lemma WithReadIdempotent(notifications: seq<Notification>, id: string)
    ensures WithRead(WithRead(notifications, id), id) == WithRead(notifications, id)
    ensures forall i :: 0 <= i < |notifications| && notifications[i].read ==> WithRead(notifications, id)[i].read
  {
  }

  /** Marking notifications read never raises the unread count; it drops by the number of
      unread notifications carrying that id. */
  lemma {:induction false} WithReadUnreadCount(notifications: seq<Notification>, id: string)
    ensures UnreadCount(WithRead(notifications, id)) ==
            UnreadCount(notifications) - Count(notifications, (n: Notification) => n.id == id && !n.read)
    ensures UnreadCount(WithRead(notifications, id)) <= UnreadCount(notifications)
  {
    if notifications != [] {
      var r := WithRead(notifications, id);
      WithReadUnreadCount(notifications[1..], id);
      assert r[1..] == WithRead(notifications[1..], id);
    }
  }

  function WithIntegrationStatus(integrations: seq<Integration>, platform: IntegrationPlatform, status: IntegrationStatus): (r: seq<Integration>)
    ensures |r| == |integrations|
    ensures forall i :: 0 <= i < |r| && integrations[i].platform == platform ==> r[i] == integrations[i].(status := status)
    ensures forall i :: 0 <= i < |r| && integrations[i].platform != platform ==> r[i] == integrations[i]
  {
    MapWhere(integrations, (i: Integration) => i.platform == platform, (i: Integration) => i.(status := status))
  }

  class PortalStore {
    var currentClient: Option<Client>
    var integrations: seq<Integration>
    var progressMetrics: Option<ProgressMetrics>
    var notifications: seq<Notification>
    var isLoading: bool

    constructor()
      ensures currentClient == None && integrations == [] && progressMetrics == None
      ensures notifications == [] && !isLoading
    {
      currentClient := None;
      integrations := [];
      progressMetrics := None;
      notifications := [];
      isLoading := false;
    }

    method SetCurrentClient(client: Client)
      modifies this
      ensures currentClient == Some(client)
      ensures integrations == old(integrations) && progressMetrics == old(progressMetrics)
      ensures notifications == old(notifications) && isLoading == old(isLoading)
    {
      currentClient := Some(client);
    }

    method UpdateProgressMetrics(metrics: ProgressMetrics)
      modifies this
      ensures progressMetrics == Some(metrics)
      ensures currentClient == old(currentClient) && integrations == old(integrations)
      ensures notifications == old(notifications) && isLoading == old(isLoading)
    {
      progressMetrics := Some(metrics);
    }

    method AddNotification(notification: Notification)
      modifies this
      ensures notifications == [notification] + old(notifications)
      ensures currentClient == old(currentClient) && integrations == old(integrations)
      ensures progressMetrics == old(progressMetrics) && isLoading == old(isLoading)
    {
      notifications := [notification] + notifications;
    }

    method MarkNotificationRead(id: string)
      modifies this
      ensures notifications == WithRead(old(notifications), id)
      ensures UnreadCount(notifications) <= UnreadCount(old(notifications))
      ensures currentClient == old(currentClient) && integrations == old(integrations)
      ensures progressMetrics == old(progressMetrics) && isLoading == old(isLoading)
    {
      WithReadUnreadCount(notifications, id);
      notifications := WithRead(notifications, id);
    }

    method UpdateIntegrationStatus(platform: IntegrationPlatform, status: IntegrationStatus)
      modifies this
      ensures integrations == WithIntegrationStatus(old(integrations), platform, status)
      ensures currentClient == old(currentClient) && progressMetrics == old(progressMetrics)
      ensures notifications == old(notifications) && isLoading == old(isLoading)
    {
      integrations := WithIntegrationStatus(integrations, platform, status);
    }
  }
}

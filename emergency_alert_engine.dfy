/**
 * The emergency-alert page: a history of alerts, newest first, each sent through
 * the channels enabled in the configuration and moved from pending to sent to
 * delivered by two delayed status updates (modelled as explicit steps).
 */
module EmergencyAlertEngine {

  datatype AlertSeverity = Low | Medium | High | Critical

  datatype AlertStatus = Pending | Sent | Delivered | Failed

  datatype EmergencyAlert = EmergencyAlert(
    id: string, severity: AlertSeverity, location: string, message: string,
    timestamp: string, channels: seq<string>, recipients: nat, status: AlertStatus)

  datatype AlertConfig = AlertConfig(
    sms: bool, whatsapp: bool, email: bool, autoTrigger: bool, severityThreshold: string)

  datatype NewAlertForm = NewAlertForm(location: string, severity: AlertSeverity, customMessage: string)

  datatype DotColor = Info | Warning | Error

  /** One rendered row of the "Recent Alerts" timeline. */
  datatype HistoryItem = HistoryItem(alert: EmergencyAlert, color: DotColor, connector: bool)

  /** Every channel, in the order the configuration lists them. */
  const AllChannels: seq<string> := ["SMS", "WhatsApp", "Email"]

  /** The mock recipient count of every alert. */
  const Recipients: nat := 5000

  /** At most this many alerts are shown in the history. */
  const HistoryLength: nat := 4

  // ----- channel selection -----

  /** The names whose flag is set, in their original order. */
  function Selected(flags: seq<bool>, names: seq<string>): seq<string>
    requires |flags| == |names|
  {
    if flags == [] then []
    else (if flags[0] then [names[0]] else []) + Selected(flags[1..], names[1..])
  }

  function CountTrue(flags: seq<bool>): nat {
    if flags == [] then 0 else (if flags[0] then 1 else 0) + CountTrue(flags[1..])
  }

  function Flags(config: AlertConfig): seq<bool> {
    [config.sms, config.whatsapp, config.email]
  }

  /** As many names are selected as flags are set. */
  lemma {:induction false} SelectedLength(flags: seq<bool>, names: seq<string>)
    requires |flags| == |names|
    ensures |Selected(flags, names)| == CountTrue(flags)
  {
    if flags != [] {
      SelectedLength(flags[1..], names[1..]);
    }
  }

  /** With distinct names, a name is selected exactly when its flag is set. */
  lemma {:induction false} SelectedMembership(flags: seq<bool>, names: seq<string>, i: nat)
    requires |flags| == |names| && i < |names|
    requires forall a, b :: 0 <= a < b < |names| ==> names[a] != names[b]
    ensures names[i] in Selected(flags, names) <==> flags[i]
  {
    var rest := Selected(flags[1..], names[1..]);
    assert Selected(flags, names) == (if flags[0] then [names[0]] else []) + rest;
    if i == 0 {
      SelectedSubset(flags[1..], names[1..]);
      assert names[0] !in names[1..];
    } else {
      SelectedMembership(flags[1..], names[1..], i - 1);
    }
  }

  lemma {:induction false} SelectedSubset(flags: seq<bool>, names: seq<string>)
    requires |flags| == |names|
    ensures forall x :: x in Selected(flags, names) ==> x in names
  {
    if flags != [] {
      SelectedSubset(flags[1..], names[1..]);
    }
  }

  // ----- messages and colours -----

  /** The fixed head of each severity's generated message. */
  function Headline(severity: AlertSeverity): string {
    match severity
    case Low => "LOW ALERT"
    case Medium => "MEDIUM ALERT"
    case High => "HIGH ALERT - DANGER"
    case Critical => "CRITICAL EMERGENCY"
  }

  /** The text between the headline and the location. */
  function LeadText(severity: AlertSeverity): string {
    match severity
    case Low => ": Elevated heavy metal levels detected in "
    case Medium => ": Significant contamination in "
    case High => ": High pollution levels in "
    case Critical => ": Severe contamination in "
  }

  /** The text of a generated message before the location. */
  function MessageLead(severity: AlertSeverity): string {
    Headline(severity) + LeadText(severity)
  }

  /** The text of a generated message after the location. */
  function MessageTail(severity: AlertSeverity): string {
    match severity
    case Low => ". Monitor for updates."
    case Medium => ". Avoid drinking tap water until further notice."
    case High => ". Seek alternative water sources immediately."
    case Critical => ". DO NOT USE WATER for any purpose. Follow official instructions."
  }

  function GenerateAutoMessage(severity: AlertSeverity, location: string): string {
    MessageLead(severity) + location + MessageTail(severity)
  }

  /** A generated message opens with its severity's headline and carries the location right after the lead. */
  lemma AutoMessageShape(severity: AlertSeverity, location: string)
    ensures var m, n := GenerateAutoMessage(severity, location), |MessageLead(severity)|;
      && Headline(severity) <= m
      && n + |location| <= |m| && m[n..n + |location|] == location
  {
    ConcatShape(Headline(severity), LeadText(severity), location, MessageTail(severity));
  }

  lemma ConcatShape(head: string, lead: string, middle: string, tail: string)
    ensures var m, n := head + lead + middle + tail, |head + lead|;
      head <= m && n + |middle| <= |m| && m[n..n + |middle|] == middle
  {
    var m := head + lead + middle + tail;
    assert m == head + (lead + middle + tail);
    assert m == (head + lead) + (middle + tail);
  }

  /** Messages generated for different severities differ, whatever the locations. */
  lemma AutoMessageDistinguishesSeverity(s1: AlertSeverity, s2: AlertSeverity, location1: string, location2: string)
    requires s1 != s2
    ensures GenerateAutoMessage(s1, location1) != GenerateAutoMessage(s2, location2)
  {
    AutoMessageInitial(s1, location1);
    AutoMessageInitial(s2, location2);
    FirstCharacterDiffers(GenerateAutoMessage(s1, location1), GenerateAutoMessage(s2, location2));
  }

  /** A generated message starts with its headline's first letter. */
  lemma AutoMessageInitial(severity: AlertSeverity, location: string)
    ensures |GenerateAutoMessage(severity, location)| > 0
    ensures GenerateAutoMessage(severity, location)[0] == Initial(severity)
  {
    var head := Headline(severity);
    ConcatShape(head, LeadText(severity), location, MessageTail(severity));
    assert |head| > 0 && head[0] == Initial(severity);
  }

  lemma FirstCharacterDiffers(m1: string, m2: string)
    requires |m1| > 0 && |m2| > 0 && m1[0] != m2[0]
    ensures m1 != m2
  {
  }

  /** The first letter of a severity's headline. */
  function Initial(severity: AlertSeverity): (c: char)
    ensures c == Headline(severity)[0]
  {
    match severity
    case Low => 'L'
    case Medium => 'M'
    case High => 'H'
    case Critical => 'C'
  }

  /** The alert text: the custom message unless it is empty, then the generated one. */
  function AlertMessage(form: NewAlertForm): (m: string)
    ensures form.customMessage != "" ==> m == form.customMessage
    ensures form.customMessage == "" ==> m == GenerateAutoMessage(form.severity, form.location)
  {
    if form.customMessage != "" then form.customMessage else GenerateAutoMessage(form.severity, form.location)
  }

  function GetSeverityColor(severity: AlertSeverity): (c: DotColor)
    ensures c == Info <==> severity == Low
    ensures c == Warning <==> severity == Medium
    ensures c == Error <==> severity == High || severity == Critical
  {
    match severity
    case Low => Info
    case Medium => Warning
    case _ => Error
  }

  // ----- status updates and history -----

  /** The alerts with every alert whose id is `id` given `status`; the others untouched. */
  function WithStatus(alerts: seq<EmergencyAlert>, id: string, status: AlertStatus): (r: seq<EmergencyAlert>)
    ensures |r| == |alerts|
    ensures forall i :: 0 <= i < |alerts| ==>
      r[i] == if alerts[i].id == id then alerts[i].(status := status) else alerts[i]
  {
    if alerts == [] then []
    else [if alerts[0].id == id then alerts[0].(status := status) else alerts[0]] + WithStatus(alerts[1..], id, status)
  }

  /** The second status update overrides the first: sent then delivered is delivered. */
  lemma StatusUpdatesCompose(alerts: seq<EmergencyAlert>, id: string, first: AlertStatus, second: AlertStatus)
    ensures WithStatus(WithStatus(alerts, id, first), id, second) == WithStatus(alerts, id, second)
  {
    var a, b := WithStatus(WithStatus(alerts, id, first), id, second), WithStatus(alerts, id, second);
    assert forall i :: 0 <= i < |alerts| ==> a[i] == b[i];
  }

  /** The first four alerts, each with its dot colour and a connector below every row but the last shown. */
  function History(alerts: seq<EmergencyAlert>): (items: seq<HistoryItem>)
    ensures |items| == if |alerts| < HistoryLength then |alerts| else HistoryLength
    ensures forall i :: 0 <= i < |items| ==>
      items[i].alert == alerts[i] && items[i].color == GetSeverityColor(alerts[i].severity)
    ensures forall i :: 0 <= i < |items| ==> (items[i].connector <==> i < |items| - 1)
  {
    var shown := if |alerts| < HistoryLength then alerts else alerts[..HistoryLength];
    seq(|shown|, i requires 0 <= i < |shown| =>
      HistoryItem(shown[i], GetSeverityColor(shown[i].severity), i < 3 && i < |alerts| - 1))
  }

  class AlertEngine {
    var alerts: seq<EmergencyAlert>
    var config: AlertConfig
    var newAlert: NewAlertForm

    constructor ()
      ensures alerts == []
      ensures config == AlertConfig(true, true, true, true, "high")
      ensures newAlert == NewAlertForm("", High, "")
    {
      alerts := [];
      config := AlertConfig(true, true, true, true, "high");
      newAlert := NewAlertForm("", High, "");
    }

    /** A configuration switch or selector was changed. */
    method SetConfig(c: AlertConfig)
      modifies this
      ensures config == c && alerts == old(alerts) && newAlert == old(newAlert)
    {
      config := c;
    }

    /** A field of the manual-alert form was edited. */
    method SetNewAlert(form: NewAlertForm)
      modifies this
      ensures newAlert == form && alerts == old(alerts) && config == old(config)
    {
      newAlert := form;
    }

    /** The enabled channels: SMS, WhatsApp, Email, in that order, each only when its switch is on. */
    method GetActiveChannels() returns (channels: seq<string>)
      ensures channels == Selected(Flags(config), AllChannels)
      ensures |channels| == CountTrue(Flags(config))
      ensures ("SMS" in channels <==> config.sms) && ("WhatsApp" in channels <==> config.whatsapp)
      ensures "Email" in channels <==> config.email
    {
      channels := [];
      if config.sms { channels := channels + ["SMS"]; }
      if config.whatsapp { channels := channels + ["WhatsApp"]; }
      if config.email { channels := channels + ["Email"]; }
      var flags := Flags(config);
      var f1, f2, n1, n2 := flags[1..], flags[2..], AllChannels[1..], AllChannels[2..];
      assert f1 == [config.whatsapp, config.email] && f2 == [config.email] && f1[1..] == f2 && f2[1..] == [];
      assert n1 == ["WhatsApp", "Email"] && n2 == ["Email"] && n1[1..] == n2 && n2[1..] == [];
      assert Selected(f2, n2) == if config.email then ["Email"] else [];
      assert Selected(f1, n1) == (if config.whatsapp then ["WhatsApp"] else []) + Selected(f2, n2);
      assert Selected(flags, AllChannels) == (if config.sms then ["SMS"] else []) + Selected(f1, n1);
      SelectedLength(flags, AllChannels);
      SelectedMembership(flags, AllChannels, 0);
      SelectedMembership(flags, AllChannels, 1);
      SelectedMembership(flags, AllChannels, 2);
    }

    /**
     * Builds a pending alert from the form (its id and time stamp are the current
     * time, `now`) and puts it in front of the earlier alerts.
     */
    method TriggerEmergencyAlert(now: string) returns (alert: EmergencyAlert)
      modifies this
      ensures alerts == [alert] + old(alerts)
      ensures alert.id == now && alert.status == Pending && alert.recipients == Recipients
      ensures alert.severity == old(newAlert).severity && alert.location == old(newAlert).location
      ensures alert.message == AlertMessage(old(newAlert))
      ensures alert.channels == Selected(Flags(old(config)), AllChannels)
      ensures config == old(config) && newAlert == old(newAlert)
    {
      var channels := GetActiveChannels();
      alert := EmergencyAlert(
        now, newAlert.severity, newAlert.location, AlertMessage(newAlert),
        now, channels, Recipients, Pending);
      alerts := [alert] + alerts;
    }

    /** The first delayed update: alerts with this id become sent. */
    method MarkSent(id: string)
      modifies this
      ensures alerts == WithStatus(old(alerts), id, Sent)
      ensures config == old(config) && newAlert == old(newAlert)
    {
      alerts := WithStatus(alerts, id, Sent);
    }

    /** The second delayed update: alerts with this id become delivered. */
    method MarkDelivered(id: string)
      modifies this
      ensures alerts == WithStatus(old(alerts), id, Delivered)
      ensures config == old(config) && newAlert == old(newAlert)
    {
      alerts := WithStatus(alerts, id, Delivered);
    }
  }

  /**
   * A full send: trigger, then both delayed updates. The new alert ends delivered
   * at the front, and an earlier alert changes only if it has the same id.
   */
  method SendAlert(engine: AlertEngine, now: string) returns (alert: EmergencyAlert)
    modifies engine
    ensures |engine.alerts| == |old(engine.alerts)| + 1
    ensures engine.alerts[0] == alert.(status := Delivered)
    ensures forall i :: 0 <= i < |old(engine.alerts)| ==>
      engine.alerts[i + 1] == if old(engine.alerts)[i].id == now then old(engine.alerts)[i].(status := Delivered)
                              else old(engine.alerts)[i]
  {
    alert := engine.TriggerEmergencyAlert(now);
    engine.MarkSent(alert.id);
    engine.MarkDelivered(alert.id);
  }
}

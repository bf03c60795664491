/**
 * Facts about particular OCPP 1.6 enumerations that the source states in
 * doc comments and section comments of ocpp/v16/enums.py: the names of
 * actions, case-sensitive decoding, the groupings of charge point statuses,
 * trigger messages and firmware statuses, and the default measurand and unit.
 */
module OcppV16EnumFacts {
  import opened Wrappers
  import opened OcppV16Enums

  /** An action is sent under its own attribute name, e.g. `Heartbeat`. */
  lemma ActionNamesAreWireStrings(a: Action)
    ensures a.Name() == a.ToWire()
  {
  }

  /** So the name of an action decodes to that action. */
  lemma ActionFromName(a: Action)
    ensures Action.FromWire(a.Name()) == Some(a)
  {
    ActionNamesAreWireStrings(a);
    Action.RoundTrip(a);
  }

  /** Decoding is exact: the value differs from a member's only in letter case and decodes to nothing. */
  lemma ResetTypeIsCaseSensitive()
    ensures ResetType.FromWire("Hard") == Some(ResetType.Hard)
    ensures ResetType.FromWire("Soft") == Some(ResetType.Soft)
    ensures ResetType.FromWire("hard") == None
    ensures ResetType.FromWire("soft") == None
  {
  }

  /** The statuses the `ChargePointStatus` doc comment calls operative, by value. */
  const OperativeStatuses: set<string> :=
    {"Available", "Preparing", "Charging", "SuspendedEVSE", "SuspendedEV", "Finishing", "Reserved"}

  /** The statuses it calls inoperative. */
  const InoperativeStatuses: set<string> := {"Unavailable", "Faulted"}

  /** The statuses the main controller (connector 0) may report. */
  const ConnectorZeroStatuses: set<string> := {"Available", "Unavailable", "Faulted"}

  /** Every status is operative or inoperative, and never both. */
  lemma StatusIsOperativeOrInoperative(s: ChargePointStatus)
    ensures s.ToWire() in OperativeStatuses <==> s.ToWire() !in InoperativeStatuses
  {
  }

  /** Every value the two groups name is the value of a status. */
  lemma StatusGroupsAreStatuses(v: string)
    requires v in OperativeStatuses + InoperativeStatuses
    ensures ChargePointStatus.FromWire(v).Some?
  {
  }

  /** The connector-0 statuses are Available and the inoperative ones. */
  lemma ConnectorZeroStatusesAreStatuses()
    ensures ConnectorZeroStatuses == {"Available"} + InoperativeStatuses
    ensures ConnectorZeroStatuses <= OperativeStatuses + InoperativeStatuses
  {
  }

  /** The triggers both TriggerMessage.req and ExtendedTriggerMessage.req accept. */
  const CommonTriggers: set<MessageTrigger> :=
    {MessageTrigger.BootNotification, MessageTrigger.FirmwareStatusNotification, MessageTrigger.Heartbeat,
     MessageTrigger.MeterValues, MessageTrigger.StatusNotification}

  /** The triggers of TriggerMessage.req. */
  const TriggerMessageTriggers: set<MessageTrigger> :=
    CommonTriggers + {MessageTrigger.DiagnosticsStatusNotification}

  /** The triggers of ExtendedTriggerMessage.req. */
  const ExtendedTriggerMessageTriggers: set<MessageTrigger> :=
    CommonTriggers + {MessageTrigger.LogStatusNotification, MessageTrigger.SignChargePointCertificate}

  /** The two requests share exactly the common triggers, and every trigger belongs to one of them. */
  lemma TriggerGroups(t: MessageTrigger)
    ensures t in TriggerMessageTriggers && t in ExtendedTriggerMessageTriggers <==> t in CommonTriggers
    ensures t in TriggerMessageTriggers + ExtendedTriggerMessageTriggers
  {
  }

  /** A TriggerMessage.req trigger carries the name of the action it asks for. */
  lemma TriggerMessageTriggersNameActions(t: MessageTrigger)
    requires t in TriggerMessageTriggers
    ensures Action.FromWire(t.ToWire()).Some?
  {
    var a := match t
      case BootNotification => Action.BootNotification
      case FirmwareStatusNotification => Action.FirmwareStatusNotification
      case Heartbeat => Action.Heartbeat
      case MeterValues => Action.MeterValues
      case StatusNotification => Action.StatusNotification
      case _ => Action.DiagnosticsStatusNotification;
    assert a.ToWire() == t.ToWire();
    Action.RoundTrip(a);
  }

  /** The firmware statuses of both notifications. */
  const CommonFirmwareStatuses: set<FirmwareStatus> :=
    {FirmwareStatus.Downloaded, FirmwareStatus.DownloadFailed, FirmwareStatus.Downloading, FirmwareStatus.Idle,
     FirmwareStatus.InstallationFailed, FirmwareStatus.Installing, FirmwareStatus.Installed}

  /** The firmware statuses only SignedFirmwareStatusNotification.req uses. */
  const SignedOnlyFirmwareStatuses: set<FirmwareStatus> :=
    {FirmwareStatus.DownloadScheduled, FirmwareStatus.DownloadPaused, FirmwareStatus.InstallRebooting,
     FirmwareStatus.InstallScheduled, FirmwareStatus.InstallVerificationFailed, FirmwareStatus.InvalidSignature,
     FirmwareStatus.SignatureVerified}

  /** The two groups split the statuses, and no signed-only value is the value of a common status. */
  lemma FirmwareStatusGroups(c: FirmwareStatus, s: FirmwareStatus)
    ensures c in CommonFirmwareStatuses <==> c !in SignedOnlyFirmwareStatuses
    ensures c in CommonFirmwareStatuses && s in SignedOnlyFirmwareStatuses ==> c.ToWire() != s.ToWire()
  {
    if c.ToWire() == s.ToWire() {
      assert FirmwareStatus.FromWire(c.ToWire()) == Some(c) == Some(s);
    }
  }

  /** The default measurand is a member. */
  lemma MeasurandDefaultIsMember()
    ensures Measurand.FromWire("Energy.Active.Import.Register") == Some(Measurand.EnergyActiveImportRegister)
  {
    assert Measurand.EnergyActiveImportRegister.ToWire() == "Energy.Active.Import.Register";
  }

  /** The default unit is a member, and so is the errata value Hertz. */
  lemma UnitOfMeasureDefaultIsMember()
    ensures UnitOfMeasure.FromWire("Wh") == Some(UnitOfMeasure.Wh)
    ensures UnitOfMeasure.FromWire("Hertz") == Some(UnitOfMeasure.Hertz)
  {
    assert UnitOfMeasure.Wh.ToWire() == "Wh";
    assert UnitOfMeasure.Hertz.ToWire() == "Hertz";
  }
}

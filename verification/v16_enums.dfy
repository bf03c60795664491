/**
 * The OCPP 1.6 wire enumerations of ocpp/v16/enums.py. Each class is a closed
 * set of members, and each member carries one exact, case-sensitive string
 * on the wire. `ToWire` gives a member's string. `FromWire` is the partial
 * inverse the source gets by calling the class on a string: it yields
 * nothing for any string that is not a member's value.
 *
 * A class that declares the same value under a second, deprecated name
 * keeps that name as an alias of the first member (Python's enum rule).
 * Such a class lists its deprecated names, each with its declared value,
 * in `Deprecated`.
 *
 * Classes of more than 17 members split `FromWire` into parts
 * (`FromWirePart1`, ...), each covering the members from some point on.
 * The split only keeps each proof small and does not change the result.
 * The two largest classes, `Action` and `ConfigurationKey`, decode instead
 * by trying their members in ascending wire order (see `WireOrder`).
 */
module OcppV16Enums {
  import opened Wrappers
  import opened WireOrder

  /** `Action`, declared at ocpp/v16/enums.py:11-52. */
  datatype Action =
    | Authorize
    | BootNotification
    | CancelReservation
    | CertificateSigned
    | ChangeAvailability
    | ChangeConfiguration
    | ClearCache
    | ClearChargingProfile
    | DataTransfer
    | DeleteCertificate
    | DiagnosticsStatusNotification
    | ExtendedTriggerMessage
    | FirmwareStatusNotification
    | GetCompositeSchedule
    | GetConfiguration
    | GetDiagnostics
    | GetInstalledCertificateIds
    | GetLocalListVersion
    | GetLog
    | Heartbeat
    | InstallCertificate
    | LogStatusNotification
    | MeterValues
    | RemoteStartTransaction
    | RemoteStopTransaction
    | ReserveNow
    | Reset
    | SecurityEventNotification
    | SendLocalList
    | SetChargingProfile
    | SignCertificate
    | SignedFirmwareStatusNotification
    | SignedUpdateFirmware
    | StartTransaction
    | StatusNotification
    | StopTransaction
    | TriggerMessage
    | UnlockConnector
    | UpdateFirmware
  {
    /** The member's value, the string sent on the wire. */
    function ToWire(): string {
      match this
      case Authorize => "Authorize"
      case BootNotification => "BootNotification"
      case CancelReservation => "CancelReservation"
      case CertificateSigned => "CertificateSigned"
      case ChangeAvailability => "ChangeAvailability"
      case ChangeConfiguration => "ChangeConfiguration"
      case ClearCache => "ClearCache"
      case ClearChargingProfile => "ClearChargingProfile"
      case DataTransfer => "DataTransfer"
      case DeleteCertificate => "DeleteCertificate"
      case DiagnosticsStatusNotification => "DiagnosticsStatusNotification"
      case ExtendedTriggerMessage => "ExtendedTriggerMessage"
      case FirmwareStatusNotification => "FirmwareStatusNotification"
      case GetCompositeSchedule => "GetCompositeSchedule"
      case GetConfiguration => "GetConfiguration"
      case GetDiagnostics => "GetDiagnostics"
      case GetInstalledCertificateIds => "GetInstalledCertificateIds"
      case GetLocalListVersion => "GetLocalListVersion"
      case GetLog => "GetLog"
      case Heartbeat => "Heartbeat"
      case InstallCertificate => "InstallCertificate"
      case LogStatusNotification => "LogStatusNotification"
      case MeterValues => "MeterValues"
      case RemoteStartTransaction => "RemoteStartTransaction"
      case RemoteStopTransaction => "RemoteStopTransaction"
      case ReserveNow => "ReserveNow"
      case Reset => "Reset"
      case SecurityEventNotification => "SecurityEventNotification"
      case SendLocalList => "SendLocalList"
      case SetChargingProfile => "SetChargingProfile"
      case SignCertificate => "SignCertificate"
      case SignedFirmwareStatusNotification => "SignedFirmwareStatusNotification"
      case SignedUpdateFirmware => "SignedUpdateFirmware"
      case StartTransaction => "StartTransaction"
      case StatusNotification => "StatusNotification"
      case StopTransaction => "StopTransaction"
      case TriggerMessage => "TriggerMessage"
      case UnlockConnector => "UnlockConnector"
      case UpdateFirmware => "UpdateFirmware"
    }

    /** The member's attribute name in the source. */
    function Name(): string {
      match this
      case Authorize => "Authorize"
      case BootNotification => "BootNotification"
      case CancelReservation => "CancelReservation"
      case CertificateSigned => "CertificateSigned"
      case ChangeAvailability => "ChangeAvailability"
      case ChangeConfiguration => "ChangeConfiguration"
      case ClearCache => "ClearCache"
      case ClearChargingProfile => "ClearChargingProfile"
      case DataTransfer => "DataTransfer"
      case DeleteCertificate => "DeleteCertificate"
      case DiagnosticsStatusNotification => "DiagnosticsStatusNotification"
      case ExtendedTriggerMessage => "ExtendedTriggerMessage"
      case FirmwareStatusNotification => "FirmwareStatusNotification"
      case GetCompositeSchedule => "GetCompositeSchedule"
      case GetConfiguration => "GetConfiguration"
      case GetDiagnostics => "GetDiagnostics"
      case GetInstalledCertificateIds => "GetInstalledCertificateIds"
      case GetLocalListVersion => "GetLocalListVersion"
      case GetLog => "GetLog"
      case Heartbeat => "Heartbeat"
      case InstallCertificate => "InstallCertificate"
      case LogStatusNotification => "LogStatusNotification"
      case MeterValues => "MeterValues"
      case RemoteStartTransaction => "RemoteStartTransaction"
      case RemoteStopTransaction => "RemoteStopTransaction"
      case ReserveNow => "ReserveNow"
      case Reset => "Reset"
      case SecurityEventNotification => "SecurityEventNotification"
      case SendLocalList => "SendLocalList"
      case SetChargingProfile => "SetChargingProfile"
      case SignCertificate => "SignCertificate"
      case SignedFirmwareStatusNotification => "SignedFirmwareStatusNotification"
      case SignedUpdateFirmware => "SignedUpdateFirmware"
      case StartTransaction => "StartTransaction"
      case StatusNotification => "StatusNotification"
      case StopTransaction => "StopTransaction"
      case TriggerMessage => "TriggerMessage"
      case UnlockConnector => "UnlockConnector"
      case UpdateFirmware => "UpdateFirmware"
    }

    /** The member's position when the members are sorted by `Below` on their values. */
    function Rank(): nat {
      match this
      case Authorize => 2
      case BootNotification => 15
      case CancelReservation => 18
      case CertificateSigned => 19
      case ChangeAvailability => 21
      case ChangeConfiguration => 25
      case ClearCache => 4
      case ClearChargingProfile => 27
      case DataTransfer => 7
      case DeleteCertificate => 20
      case DiagnosticsStatusNotification => 37
      case ExtendedTriggerMessage => 32
      case FirmwareStatusNotification => 35
      case GetCompositeSchedule => 28
      case GetConfiguration => 16
      case GetDiagnostics => 9
      case GetInstalledCertificateIds => 36
      case GetLocalListVersion => 26
      case GetLog => 1
      case Heartbeat => 3
      case InstallCertificate => 22
      case LogStatusNotification => 30
      case MeterValues => 6
      case RemoteStartTransaction => 33
      case RemoteStopTransaction => 31
      case ReserveNow => 5
      case Reset => 0
      case SecurityEventNotification => 34
      case SendLocalList => 8
      case SetChargingProfile => 23
      case SignCertificate => 12
      case SignedFirmwareStatusNotification => 38
      case SignedUpdateFirmware => 29
      case StartTransaction => 17
      case StatusNotification => 24
      case StopTransaction => 13
      case TriggerMessage => 10
      case UnlockConnector => 14
      case UpdateFirmware => 11
    }

    /** The member of the next rank, if any. */
    function Next(): Option<Action> {
      match this
      case Authorize => Some(Action.Heartbeat)
      case BootNotification => Some(Action.GetConfiguration)
      case CancelReservation => Some(Action.CertificateSigned)
      case CertificateSigned => Some(Action.DeleteCertificate)
      case ChangeAvailability => Some(Action.InstallCertificate)
      case ChangeConfiguration => Some(Action.GetLocalListVersion)
      case ClearCache => Some(Action.ReserveNow)
      case ClearChargingProfile => Some(Action.GetCompositeSchedule)
      case DataTransfer => Some(Action.SendLocalList)
      case DeleteCertificate => Some(Action.ChangeAvailability)
      case DiagnosticsStatusNotification => Some(Action.SignedFirmwareStatusNotification)
      case ExtendedTriggerMessage => Some(Action.RemoteStartTransaction)
      case FirmwareStatusNotification => Some(Action.GetInstalledCertificateIds)
      case GetCompositeSchedule => Some(Action.SignedUpdateFirmware)
      case GetConfiguration => Some(Action.StartTransaction)
      case GetDiagnostics => Some(Action.TriggerMessage)
      case GetInstalledCertificateIds => Some(Action.DiagnosticsStatusNotification)
      case GetLocalListVersion => Some(Action.ClearChargingProfile)
      case GetLog => Some(Action.Authorize)
      case Heartbeat => Some(Action.ClearCache)
      case InstallCertificate => Some(Action.SetChargingProfile)
      case LogStatusNotification => Some(Action.RemoteStopTransaction)
      case MeterValues => Some(Action.DataTransfer)
      case RemoteStartTransaction => Some(Action.SecurityEventNotification)
      case RemoteStopTransaction => Some(Action.ExtendedTriggerMessage)
      case ReserveNow => Some(Action.MeterValues)
      case Reset => Some(Action.GetLog)
      case SecurityEventNotification => Some(Action.FirmwareStatusNotification)
      case SendLocalList => Some(Action.GetDiagnostics)
      case SetChargingProfile => Some(Action.StatusNotification)
      case SignCertificate => Some(Action.StopTransaction)
      case SignedFirmwareStatusNotification => None
      case SignedUpdateFirmware => Some(Action.LogStatusNotification)
      case StartTransaction => Some(Action.CancelReservation)
      case StatusNotification => Some(Action.ChangeConfiguration)
      case StopTransaction => Some(Action.UnlockConnector)
      case TriggerMessage => Some(Action.UpdateFirmware)
      case UnlockConnector => Some(Action.BootNotification)
      case UpdateFirmware => Some(Action.SignCertificate)
    }

    /** The member of rank `k`, if any: the inverse of `Rank`. */
    static function AtRank(k: nat): Option<Action> {
      if k == 0 then Some(Action.Reset)
      else if k == 1 then Some(Action.GetLog)
      else if k == 2 then Some(Action.Authorize)
      else if k == 3 then Some(Action.Heartbeat)
      else if k == 4 then Some(Action.ClearCache)
      else if k == 5 then Some(Action.ReserveNow)
      else if k == 6 then Some(Action.MeterValues)
      else if k == 7 then Some(Action.DataTransfer)
      else if k == 8 then Some(Action.SendLocalList)
      else if k == 9 then Some(Action.GetDiagnostics)
      else if k == 10 then Some(Action.TriggerMessage)
      else if k == 11 then Some(Action.UpdateFirmware)
      else if k == 12 then Some(Action.SignCertificate)
      else if k == 13 then Some(Action.StopTransaction)
      else if k == 14 then Some(Action.UnlockConnector)
      else if k == 15 then Some(Action.BootNotification)
      else if k == 16 then Some(Action.GetConfiguration)
      else if k == 17 then Some(Action.StartTransaction)
      else if k == 18 then Some(Action.CancelReservation)
      else if k == 19 then Some(Action.CertificateSigned)
      else if k == 20 then Some(Action.DeleteCertificate)
      else if k == 21 then Some(Action.ChangeAvailability)
      else if k == 22 then Some(Action.InstallCertificate)
      else if k == 23 then Some(Action.SetChargingProfile)
      else if k == 24 then Some(Action.StatusNotification)
      else if k == 25 then Some(Action.ChangeConfiguration)
      else if k == 26 then Some(Action.GetLocalListVersion)
      else if k == 27 then Some(Action.ClearChargingProfile)
      else if k == 28 then Some(Action.GetCompositeSchedule)
      else if k == 29 then Some(Action.SignedUpdateFirmware)
      else if k == 30 then Some(Action.LogStatusNotification)
      else if k == 31 then Some(Action.RemoteStopTransaction)
      else if k == 32 then Some(Action.ExtendedTriggerMessage)
      else if k == 33 then Some(Action.RemoteStartTransaction)
      else if k == 34 then Some(Action.SecurityEventNotification)
      else if k == 35 then Some(Action.FirmwareStatusNotification)
      else if k == 36 then Some(Action.GetInstalledCertificateIds)
      else if k == 37 then Some(Action.DiagnosticsStatusNotification)
      else if k == 38 then Some(Action.SignedFirmwareStatusNotification)
      else None
    }

    static const Size := 39
    static const Least := Action.Reset

    /**
     * The member whose value is `s`, if there is one: `Action(s)`.
     * Completeness is `RoundTrip`.
     */
    static function FromWire(s: string): (r: Option<Action>)
      ensures r.Some? ==> r.value.ToWire() == s
    {
      SearchFrom(Least, s)
    }

    /** The member of rank at least `m.Rank()` whose value is `s`, trying them in rank order. */
    static function SearchFrom(m: Action, s: string): (r: Option<Action>)
      ensures r.Some? ==> r.value.ToWire() == s
      decreases Size - m.Rank()
    {
      if m.ToWire() == s then Some(m)
      else
        match m.Next()
        case None => None
        case Some(n) =>
          NextAbove(m);
          SearchFrom(n, s)
    }

    /** Decoding a member's value gives that member back. */
    static lemma RoundTrip(m: Action)
      ensures FromWire(m.ToWire()) == Some(m)
    {
      SearchFinds(Least, m);
    }

    /** No two members share a value. */
    static lemma WireInjective(a: Action, b: Action)
      ensures a.ToWire() == b.ToWire() ==> a == b
    {
      RoundTrip(a);
      RoundTrip(b);
    }

    /** The search from any rank up to `m`'s finds `m`: no member on the way carries `m`'s value. */
    static lemma {:induction false} SearchFinds(y: Action, m: Action)
      requires y.Rank() <= m.Rank()
      ensures SearchFrom(y, m.ToWire()) == Some(m)
      decreases m.Rank() - y.Rank()
    {
      NextAbove(y);
      NextAbove(m);
      if y.Rank() == m.Rank() {
        RankInjective(y, m);
      } else {
        ChainBelow(y, m);
        BelowIrreflexive(m.ToWire());
        SearchFinds(y.Next().value, m);
      }
    }

    /** Values grow strictly with rank. */
    static lemma {:induction false} ChainBelow(y: Action, m: Action)
      requires y.Rank() < m.Rank()
      ensures Below(y.ToWire(), m.ToWire())
      decreases m.Rank() - y.Rank()
    {
      NextAbove(y);
      NextAbove(m);
      var n := y.Next().value;
      if n.Rank() == m.Rank() {
        RankInjective(n, m);
      } else {
        ChainBelow(n, m);
        BelowTransitive(y.ToWire(), n.ToWire(), m.ToWire());
      }
    }

    static lemma RankInjective(a: Action, b: Action)
      requires a.Rank() == b.Rank()
      ensures a == b
    {
      NextAbove(a);
      NextAbove(b);
    }

    /** Each member but the last is followed by the member of the next rank, whose value is above its own. */
    static lemma NextAbove(m: Action)
      ensures m.Rank() < Size && AtRank(m.Rank()) == Some(m)
      ensures m.Next().Some? <==> m.Rank() + 1 < Size
      ensures m.Next().Some? ==> m.Next().value.Rank() == m.Rank() + 1 && Below(m.ToWire(), m.Next().value.ToWire())
    {
      match m
      case Authorize => NextAboveAuthorize(m);
      case BootNotification => NextAboveBootNotification(m);
      case CancelReservation => NextAboveCancelReservation(m);
      case CertificateSigned => NextAboveCertificateSigned(m);
      case ChangeAvailability => NextAboveChangeAvailability(m);
      case ChangeConfiguration => NextAboveChangeConfiguration(m);
      case ClearCache => NextAboveClearCache(m);
      case ClearChargingProfile => NextAboveClearChargingProfile(m);
      case DataTransfer => NextAboveDataTransfer(m);
      case DeleteCertificate => NextAboveDeleteCertificate(m);
      case DiagnosticsStatusNotification => NextAboveDiagnosticsStatusNotification(m);
      case ExtendedTriggerMessage => NextAboveExtendedTriggerMessage(m);
      case FirmwareStatusNotification => NextAboveFirmwareStatusNotification(m);
      case GetCompositeSchedule => NextAboveGetCompositeSchedule(m);
      case GetConfiguration => NextAboveGetConfiguration(m);
      case GetDiagnostics => NextAboveGetDiagnostics(m);
      case GetInstalledCertificateIds => NextAboveGetInstalledCertificateIds(m);
      case GetLocalListVersion => NextAboveGetLocalListVersion(m);
      case GetLog => NextAboveGetLog(m);
      case Heartbeat => NextAboveHeartbeat(m);
      case InstallCertificate => NextAboveInstallCertificate(m);
      case LogStatusNotification => NextAboveLogStatusNotification(m);
      case MeterValues => NextAboveMeterValues(m);
      case RemoteStartTransaction => NextAboveRemoteStartTransaction(m);
      case RemoteStopTransaction => NextAboveRemoteStopTransaction(m);
      case ReserveNow => NextAboveReserveNow(m);
      case Reset => NextAboveReset(m);
      case SecurityEventNotification => NextAboveSecurityEventNotification(m);
      case SendLocalList => NextAboveSendLocalList(m);
      case SetChargingProfile => NextAboveSetChargingProfile(m);
      case SignCertificate => NextAboveSignCertificate(m);
      case SignedFirmwareStatusNotification => RankOfSignedFirmwareStatusNotification(m);
      case SignedUpdateFirmware => NextAboveSignedUpdateFirmware(m);
      case StartTransaction => NextAboveStartTransaction(m);
      case StatusNotification => NextAboveStatusNotification(m);
      case StopTransaction => NextAboveStopTransaction(m);
      case TriggerMessage => NextAboveTriggerMessage(m);
      case UnlockConnector => NextAboveUnlockConnector(m);
      case UpdateFirmware => NextAboveUpdateFirmware(m);
    }

    // One small lemma per member for each fact `NextAbove` gathers: its value,
    // its rank and successor, and the order between its value and the next.

    static lemma WireOfAuthorize(m: Action) requires m.Authorize? ensures m.ToWire() == "Authorize" { }
    static lemma RankOfAuthorize(m: Action) requires m.Authorize? ensures m.Rank() == 2 && m.Next() == Some(Action.Heartbeat) && AtRank(2) == Some(Action.Authorize) { }
    static lemma PrecedesAuthorize() ensures Below("Authorize", "Heartbeat") { assert "Authorize"[..0] == "Heartbeat"[..0]; }
    static lemma NextAboveAuthorize(m: Action)
      requires m.Authorize?
      ensures m.Rank() + 1 < Size && AtRank(m.Rank()) == Some(m)
      ensures m.Next().Some? && m.Next().value.Rank() == m.Rank() + 1
      ensures Below(m.ToWire(), m.Next().value.ToWire())
    {
      RankOfAuthorize(m);
      RankOfHeartbeat(m.Next().value);
      WireOfAuthorize(m);
      WireOfHeartbeat(m.Next().value);
      PrecedesAuthorize();
    }

    static lemma WireOfBootNotification(m: Action) requires m.BootNotification? ensures m.ToWire() == "BootNotification" { }
    static lemma RankOfBootNotification(m: Action) requires m.BootNotification? ensures m.Rank() == 15 && m.Next() == Some(Action.GetConfiguration) && AtRank(15) == Some(Action.BootNotification) { }
    static lemma PrecedesBootNotification() ensures Below("BootNotification", "GetConfiguration") { assert "BootNotification"[..0] == "GetConfiguration"[..0]; }
    static lemma NextAboveBootNotification(m: Action)
      requires m.BootNotification?
      ensures m.Rank() + 1 < Size && AtRank(m.Rank()) == Some(m)
      ensures m.Next().Some? && m.Next().value.Rank() == m.Rank() + 1
      ensures Below(m.ToWire(), m.Next().value.ToWire())
    {
      RankOfBootNotification(m);
      RankOfGetConfiguration(m.Next().value);
      WireOfBootNotification(m);
      WireOfGetConfiguration(m.Next().value);
      PrecedesBootNotification();
    }

    static lemma WireOfCancelReservation(m: Action) requires m.CancelReservation? ensures m.ToWire() == "CancelReservation" { }
    static lemma RankOfCancelReservation(m: Action) requires m.CancelReservation? ensures m.Rank() == 18 && m.Next() == Some(Action.CertificateSigned) && AtRank(18) == Some(Action.CancelReservation) { }
    static lemma PrecedesCancelReservation() ensures Below("CancelReservation", "CertificateSigned") { assert "CancelReservation"[..1] == "CertificateSigned"[..1]; }
    static lemma NextAboveCancelReservation(m: Action)
      requires m.CancelReservation?
      ensures m.Rank() + 1 < Size && AtRank(m.Rank()) == Some(m)
      ensures m.Next().Some? && m.Next().value.Rank() == m.Rank() + 1
      ensures Below(m.ToWire(), m.Next().value.ToWire())
    {
      RankOfCancelReservation(m);
      RankOfCertificateSigned(m.Next().value);
      WireOfCancelReservation(m);
      WireOfCertificateSigned(m.Next().value);
      PrecedesCancelReservation();
    }

    static lemma WireOfCertificateSigned(m: Action) requires m.CertificateSigned? ensures m.ToWire() == "CertificateSigned" { }
    static lemma RankOfCertificateSigned(m: Action) requires m.CertificateSigned? ensures m.Rank() == 19 && m.Next() == Some(Action.DeleteCertificate) && AtRank(19) == Some(Action.CertificateSigned) { }
    static lemma PrecedesCertificateSigned() ensures Below("CertificateSigned", "DeleteCertificate") { assert "CertificateSigned"[..0] == "DeleteCertificate"[..0]; }
    static lemma NextAboveCertificateSigned(m: Action)
      requires m.CertificateSigned?
      ensures m.Rank() + 1 < Size && AtRank(m.Rank()) == Some(m)
      ensures m.Next().Some? && m.Next().value.Rank() == m.Rank() + 1
      ensures Below(m.ToWire(), m.Next().value.ToWire())
    {
      RankOfCertificateSigned(m);
      RankOfDeleteCertificate(m.Next().value);
      WireOfCertificateSigned(m);
      WireOfDeleteCertificate(m.Next().value);
      PrecedesCertificateSigned();
    }

    static lemma WireOfChangeAvailability(m: Action) requires m.ChangeAvailability? ensures m.ToWire() == "ChangeAvailability" { }
    static lemma RankOfChangeAvailability(m: Action) requires m.ChangeAvailability? ensures m.Rank() == 21 && m.Next() == Some(Action.InstallCertificate) && AtRank(21) == Some(Action.ChangeAvailability) { }
    static lemma PrecedesChangeAvailability() ensures Below("ChangeAvailability", "InstallCertificate") { assert "ChangeAvailability"[..0] == "InstallCertificate"[..0]; }
    static lemma NextAboveChangeAvailability(m: Action)
      requires m.ChangeAvailability?
      ensures m.Rank() + 1 < Size && AtRank(m.Rank()) == Some(m)
      ensures m.Next().Some? && m.Next().value.Rank() == m.Rank() + 1
      ensures Below(m.ToWire(), m.Next().value.ToWire())
    {
      RankOfChangeAvailability(m);
      RankOfInstallCertificate(m.Next().value);
      WireOfChangeAvailability(m);
      WireOfInstallCertificate(m.Next().value);
      PrecedesChangeAvailability();
    }

    static lemma WireOfChangeConfiguration(m: Action) requires m.ChangeConfiguration? ensures m.ToWire() == "ChangeConfiguration" { }
    static lemma RankOfChangeConfiguration(m: Action) requires m.ChangeConfiguration? ensures m.Rank() == 25 && m.Next() == Some(Action.GetLocalListVersion) && AtRank(25) == Some(Action.ChangeConfiguration) { }
    static lemma PrecedesChangeConfiguration() ensures Below("ChangeConfiguration", "GetLocalListVersion") { assert "ChangeConfiguration"[..0] == "GetLocalListVersion"[..0]; }
    static lemma NextAboveChangeConfiguration(m: Action)
      requires m.ChangeConfiguration?
      ensures m.Rank() + 1 < Size && AtRank(m.Rank()) == Some(m)
      ensures m.Next().Some? && m.Next().value.Rank() == m.Rank() + 1
      ensures Below(m.ToWire(), m.Next().value.ToWire())
    {
      RankOfChangeConfiguration(m);
      RankOfGetLocalListVersion(m.Next().value);
      WireOfChangeConfiguration(m);
      WireOfGetLocalListVersion(m.Next().value);
      PrecedesChangeConfiguration();
    }

    static lemma WireOfClearCache(m: Action) requires m.ClearCache? ensures m.ToWire() == "ClearCache" { }
    static lemma RankOfClearCache(m: Action) requires m.ClearCache? ensures m.Rank() == 4 && m.Next() == Some(Action.ReserveNow) && AtRank(4) == Some(Action.ClearCache) { }
    static lemma PrecedesClearCache() ensures Below("ClearCache", "ReserveNow") { assert "ClearCache"[..0] == "ReserveNow"[..0]; }
    static lemma NextAboveClearCache(m: Action)
      requires m.ClearCache?
      ensures m.Rank() + 1 < Size && AtRank(m.Rank()) == Some(m)
      ensures m.Next().Some? && m.Next().value.Rank() == m.Rank() + 1
      ensures Below(m.ToWire(), m.Next().value.ToWire())
    {
      RankOfClearCache(m);
      RankOfReserveNow(m.Next().value);
      WireOfClearCache(m);
      WireOfReserveNow(m.Next().value);
      PrecedesClearCache();
    }

    static lemma WireOfClearChargingProfile(m: Action) requires m.ClearChargingProfile? ensures m.ToWire() == "ClearChargingProfile" { }
    static lemma RankOfClearChargingProfile(m: Action) requires m.ClearChargingProfile? ensures m.Rank() == 27 && m.Next() == Some(Action.GetCompositeSchedule) && AtRank(27) == Some(Action.ClearChargingProfile) { }
    static lemma PrecedesClearChargingProfile() ensures Below("ClearChargingProfile", "GetCompositeSchedule") { assert "ClearChargingProfile"[..0] == "GetCompositeSchedule"[..0]; }
    static lemma NextAboveClearChargingProfile(m: Action)
      requires m.ClearChargingProfile?
      ensures m.Rank() + 1 < Size && AtRank(m.Rank()) == Some(m)
      ensures m.Next().Some? && m.Next().value.Rank() == m.Rank() + 1
      ensures Below(m.ToWire(), m.Next().value.ToWire())
    {
      RankOfClearChargingProfile(m);
      RankOfGetCompositeSchedule(m.Next().value);
      WireOfClearChargingProfile(m);
      WireOfGetCompositeSchedule(m.Next().value);
      PrecedesClearChargingProfile();
    }

    static lemma WireOfDataTransfer(m: Action) requires m.DataTransfer? ensures m.ToWire() == "DataTransfer" { }
    static lemma RankOfDataTransfer(m: Action) requires m.DataTransfer? ensures m.Rank() == 7 && m.Next() == Some(Action.SendLocalList) && AtRank(7) == Some(Action.DataTransfer) { }
    static lemma PrecedesDataTransfer() ensures Below("DataTransfer", "SendLocalList") { }
    static lemma NextAboveDataTransfer(m: Action)
      requires m.DataTransfer?
      ensures m.Rank() + 1 < Size && AtRank(m.Rank()) == Some(m)
      ensures m.Next().Some? && m.Next().value.Rank() == m.Rank() + 1
      ensures Below(m.ToWire(), m.Next().value.ToWire())
    {
      RankOfDataTransfer(m);
      RankOfSendLocalList(m.Next().value);
      WireOfDataTransfer(m);
      WireOfSendLocalList(m.Next().value);
      PrecedesDataTransfer();
    }

    static lemma WireOfDeleteCertificate(m: Action) requires m.DeleteCertificate? ensures m.ToWire() == "DeleteCertificate" { }
    static lemma RankOfDeleteCertificate(m: Action) requires m.DeleteCertificate? ensures m.Rank() == 20 && m.Next() == Some(Action.ChangeAvailability) && AtRank(20) == Some(Action.DeleteCertificate) { }
    static lemma PrecedesDeleteCertificate() ensures Below("DeleteCertificate", "ChangeAvailability") { }
    static lemma NextAboveDeleteCertificate(m: Action)
      requires m.DeleteCertificate?
      ensures m.Rank() + 1 < Size && AtRank(m.Rank()) == Some(m)
      ensures m.Next().Some? && m.Next().value.Rank() == m.Rank() + 1
      ensures Below(m.ToWire(), m.Next().value.ToWire())
    {
      RankOfDeleteCertificate(m);
      RankOfChangeAvailability(m.Next().value);
      WireOfDeleteCertificate(m);
      WireOfChangeAvailability(m.Next().value);
      PrecedesDeleteCertificate();
    }

    static lemma WireOfDiagnosticsStatusNotification(m: Action) requires m.DiagnosticsStatusNotification? ensures m.ToWire() == "DiagnosticsStatusNotification" { }
    static lemma RankOfDiagnosticsStatusNotification(m: Action) requires m.DiagnosticsStatusNotification? ensures m.Rank() == 37 && m.Next() == Some(Action.SignedFirmwareStatusNotification) && AtRank(37) == Some(Action.DiagnosticsStatusNotification) { }
    static lemma PrecedesDiagnosticsStatusNotification() ensures Below("DiagnosticsStatusNotification", "SignedFirmwareStatusNotification") { }
    static lemma NextAboveDiagnosticsStatusNotification(m: Action)
      requires m.DiagnosticsStatusNotification?
      ensures m.Rank() + 1 < Size && AtRank(m.Rank()) == Some(m)
      ensures m.Next().Some? && m.Next().value.Rank() == m.Rank() + 1
      ensures Below(m.ToWire(), m.Next().value.ToWire())
    {
      RankOfDiagnosticsStatusNotification(m);
      RankOfSignedFirmwareStatusNotification(m.Next().value);
      WireOfDiagnosticsStatusNotification(m);
      WireOfSignedFirmwareStatusNotification(m.Next().value);
      PrecedesDiagnosticsStatusNotification();
    }

    static lemma WireOfExtendedTriggerMessage(m: Action) requires m.ExtendedTriggerMessage? ensures m.ToWire() == "ExtendedTriggerMessage" { }
    static lemma RankOfExtendedTriggerMessage(m: Action) requires m.ExtendedTriggerMessage? ensures m.Rank() == 32 && m.Next() == Some(Action.RemoteStartTransaction) && AtRank(32) == Some(Action.ExtendedTriggerMessage) { }
    static lemma PrecedesExtendedTriggerMessage() ensures Below("ExtendedTriggerMessage", "RemoteStartTransaction") { assert "ExtendedTriggerMessage"[..0] == "RemoteStartTransaction"[..0]; }
    static lemma NextAboveExtendedTriggerMessage(m: Action)
      requires m.ExtendedTriggerMessage?
      ensures m.Rank() + 1 < Size && AtRank(m.Rank()) == Some(m)
      ensures m.Next().Some? && m.Next().value.Rank() == m.Rank() + 1
      ensures Below(m.ToWire(), m.Next().value.ToWire())
    {
      RankOfExtendedTriggerMessage(m);
      RankOfRemoteStartTransaction(m.Next().value);
      WireOfExtendedTriggerMessage(m);
      WireOfRemoteStartTransaction(m.Next().value);
      PrecedesExtendedTriggerMessage();
    }

    static lemma WireOfFirmwareStatusNotification(m: Action) requires m.FirmwareStatusNotification? ensures m.ToWire() == "FirmwareStatusNotification" { }
    static lemma RankOfFirmwareStatusNotification(m: Action) requires m.FirmwareStatusNotification? ensures m.Rank() == 35 && m.Next() == Some(Action.GetInstalledCertificateIds) && AtRank(35) == Some(Action.FirmwareStatusNotification) { }
    static lemma PrecedesFirmwareStatusNotification() ensures Below("FirmwareStatusNotification", "GetInstalledCertificateIds") { assert "FirmwareStatusNotification"[..0] == "GetInstalledCertificateIds"[..0]; }
    static lemma NextAboveFirmwareStatusNotification(m: Action)
      requires m.FirmwareStatusNotification?
      ensures m.Rank() + 1 < Size && AtRank(m.Rank()) == Some(m)
      ensures m.Next().Some? && m.Next().value.Rank() == m.Rank() + 1
      ensures Below(m.ToWire(), m.Next().value.ToWire())
    {
      RankOfFirmwareStatusNotification(m);
      RankOfGetInstalledCertificateIds(m.Next().value);
      WireOfFirmwareStatusNotification(m);
      WireOfGetInstalledCertificateIds(m.Next().value);
      PrecedesFirmwareStatusNotification();
    }

    static lemma WireOfGetCompositeSchedule(m: Action) requires m.GetCompositeSchedule? ensures m.ToWire() == "GetCompositeSchedule" { }
    static lemma RankOfGetCompositeSchedule(m: Action) requires m.GetCompositeSchedule? ensures m.Rank() == 28 && m.Next() == Some(Action.SignedUpdateFirmware) && AtRank(28) == Some(Action.GetCompositeSchedule) { }
    static lemma PrecedesGetCompositeSchedule() ensures Below("GetCompositeSchedule", "SignedUpdateFirmware") { assert "GetCompositeSchedule"[..0] == "SignedUpdateFirmware"[..0]; }
    static lemma NextAboveGetCompositeSchedule(m: Action)
      requires m.GetCompositeSchedule?
      ensures m.Rank() + 1 < Size && AtRank(m.Rank()) == Some(m)
      ensures m.Next().Some? && m.Next().value.Rank() == m.Rank() + 1
      ensures Below(m.ToWire(), m.Next().value.ToWire())
    {
      RankOfGetCompositeSchedule(m);
      RankOfSignedUpdateFirmware(m.Next().value);
      WireOfGetCompositeSchedule(m);
      WireOfSignedUpdateFirmware(m.Next().value);
      PrecedesGetCompositeSchedule();
    }

    static lemma WireOfGetConfiguration(m: Action) requires m.GetConfiguration? ensures m.ToWire() == "GetConfiguration" { }
    static lemma RankOfGetConfiguration(m: Action) requires m.GetConfiguration? ensures m.Rank() == 16 && m.Next() == Some(Action.StartTransaction) && AtRank(16) == Some(Action.GetConfiguration) { }
    static lemma PrecedesGetConfiguration() ensures Below("GetConfiguration", "StartTransaction") { assert "GetConfiguration"[..0] == "StartTransaction"[..0]; }
    static lemma NextAboveGetConfiguration(m: Action)
      requires m.GetConfiguration?
      ensures m.Rank() + 1 < Size && AtRank(m.Rank()) == Some(m)
      ensures m.Next().Some? && m.Next().value.Rank() == m.Rank() + 1
      ensures Below(m.ToWire(), m.Next().value.ToWire())
    {
      RankOfGetConfiguration(m);
      RankOfStartTransaction(m.Next().value);
      WireOfGetConfiguration(m);
      WireOfStartTransaction(m.Next().value);
      PrecedesGetConfiguration();
    }

    static lemma WireOfGetDiagnostics(m: Action) requires m.GetDiagnostics? ensures m.ToWire() == "GetDiagnostics" { }
    static lemma RankOfGetDiagnostics(m: Action) requires m.GetDiagnostics? ensures m.Rank() == 9 && m.Next() == Some(Action.TriggerMessage) && AtRank(9) == Some(Action.GetDiagnostics) { }
    static lemma PrecedesGetDiagnostics() ensures Below("GetDiagnostics", "TriggerMessage") { assert "GetDiagnostics"[..0] == "TriggerMessage"[..0]; }
    static lemma NextAboveGetDiagnostics(m: Action)
      requires m.GetDiagnostics?
      ensures m.Rank() + 1 < Size && AtRank(m.Rank()) == Some(m)
      ensures m.Next().Some? && m.Next().value.Rank() == m.Rank() + 1
      ensures Below(m.ToWire(), m.Next().value.ToWire())
    {
      RankOfGetDiagnostics(m);
      RankOfTriggerMessage(m.Next().value);
      WireOfGetDiagnostics(m);
      WireOfTriggerMessage(m.Next().value);
      PrecedesGetDiagnostics();
    }

    static lemma WireOfGetInstalledCertificateIds(m: Action) requires m.GetInstalledCertificateIds? ensures m.ToWire() == "GetInstalledCertificateIds" { }
    static lemma RankOfGetInstalledCertificateIds(m: Action) requires m.GetInstalledCertificateIds? ensures m.Rank() == 36 && m.Next() == Some(Action.DiagnosticsStatusNotification) && AtRank(36) == Some(Action.GetInstalledCertificateIds) { }
    static lemma PrecedesGetInstalledCertificateIds() ensures Below("GetInstalledCertificateIds", "DiagnosticsStatusNotification") { }
    static lemma NextAboveGetInstalledCertificateIds(m: Action)
      requires m.GetInstalledCertificateIds?
      ensures m.Rank() + 1 < Size && AtRank(m.Rank()) == Some(m)
      ensures m.Next().Some? && m.Next().value.Rank() == m.Rank() + 1
      ensures Below(m.ToWire(), m.Next().value.ToWire())
    {
      RankOfGetInstalledCertificateIds(m);
      RankOfDiagnosticsStatusNotification(m.Next().value);
      WireOfGetInstalledCertificateIds(m);
      WireOfDiagnosticsStatusNotification(m.Next().value);
      PrecedesGetInstalledCertificateIds();
    }

    static lemma WireOfGetLocalListVersion(m: Action) requires m.GetLocalListVersion? ensures m.ToWire() == "GetLocalListVersion" { }
    static lemma RankOfGetLocalListVersion(m: Action) requires m.GetLocalListVersion? ensures m.Rank() == 26 && m.Next() == Some(Action.ClearChargingProfile) && AtRank(26) == Some(Action.GetLocalListVersion) { }
    static lemma PrecedesGetLocalListVersion() ensures Below("GetLocalListVersion", "ClearChargingProfile") { }
    static lemma NextAboveGetLocalListVersion(m: Action)
      requires m.GetLocalListVersion?
      ensures m.Rank() + 1 < Size && AtRank(m.Rank()) == Some(m)
      ensures m.Next().Some? && m.Next().value.Rank() == m.Rank() + 1
      ensures Below(m.ToWire(), m.Next().value.ToWire())
    {
      RankOfGetLocalListVersion(m);
      RankOfClearChargingProfile(m.Next().value);
      WireOfGetLocalListVersion(m);
      WireOfClearChargingProfile(m.Next().value);
      PrecedesGetLocalListVersion();
    }

    static lemma WireOfGetLog(m: Action) requires m.GetLog? ensures m.ToWire() == "GetLog" { }
    static lemma RankOfGetLog(m: Action) requires m.GetLog? ensures m.Rank() == 1 && m.Next() == Some(Action.Authorize) && AtRank(1) == Some(Action.GetLog) { }
    static lemma PrecedesGetLog() ensures Below("GetLog", "Authorize") { }
    static lemma NextAboveGetLog(m: Action)
      requires m.GetLog?
      ensures m.Rank() + 1 < Size && AtRank(m.Rank()) == Some(m)
      ensures m.Next().Some? && m.Next().value.Rank() == m.Rank() + 1
      ensures Below(m.ToWire(), m.Next().value.ToWire())
    {
      RankOfGetLog(m);
      RankOfAuthorize(m.Next().value);
      WireOfGetLog(m);
      WireOfAuthorize(m.Next().value);
      PrecedesGetLog();
    }

    static lemma WireOfHeartbeat(m: Action) requires m.Heartbeat? ensures m.ToWire() == "Heartbeat" { }
    static lemma RankOfHeartbeat(m: Action) requires m.Heartbeat? ensures m.Rank() == 3 && m.Next() == Some(Action.ClearCache) && AtRank(3) == Some(Action.Heartbeat) { }
    static lemma PrecedesHeartbeat() ensures Below("Heartbeat", "ClearCache") { }
    static lemma NextAboveHeartbeat(m: Action)
      requires m.Heartbeat?
      ensures m.Rank() + 1 < Size && AtRank(m.Rank()) == Some(m)
      ensures m.Next().Some? && m.Next().value.Rank() == m.Rank() + 1
      ensures Below(m.ToWire(), m.Next().value.ToWire())
    {
      RankOfHeartbeat(m);
      RankOfClearCache(m.Next().value);
      WireOfHeartbeat(m);
      WireOfClearCache(m.Next().value);
      PrecedesHeartbeat();
    }

    static lemma WireOfInstallCertificate(m: Action) requires m.InstallCertificate? ensures m.ToWire() == "InstallCertificate" { }
    static lemma RankOfInstallCertificate(m: Action) requires m.InstallCertificate? ensures m.Rank() == 22 && m.Next() == Some(Action.SetChargingProfile) && AtRank(22) == Some(Action.InstallCertificate) { }
    static lemma PrecedesInstallCertificate() ensures Below("InstallCertificate", "SetChargingProfile") { assert "InstallCertificate"[..0] == "SetChargingProfile"[..0]; }
    static lemma NextAboveInstallCertificate(m: Action)
      requires m.InstallCertificate?
      ensures m.Rank() + 1 < Size && AtRank(m.Rank()) == Some(m)
      ensures m.Next().Some? && m.Next().value.Rank() == m.Rank() + 1
      ensures Below(m.ToWire(), m.Next().value.ToWire())
    {
      RankOfInstallCertificate(m);
      RankOfSetChargingProfile(m.Next().value);
      WireOfInstallCertificate(m);
      WireOfSetChargingProfile(m.Next().value);
      PrecedesInstallCertificate();
    }

    static lemma WireOfLogStatusNotification(m: Action) requires m.LogStatusNotification? ensures m.ToWire() == "LogStatusNotification" { }
    static lemma RankOfLogStatusNotification(m: Action) requires m.LogStatusNotification? ensures m.Rank() == 30 && m.Next() == Some(Action.RemoteStopTransaction) && AtRank(30) == Some(Action.LogStatusNotification) { }
    static lemma PrecedesLogStatusNotification() ensures Below("LogStatusNotification", "RemoteStopTransaction") { assert "LogStatusNotification"[..0] == "RemoteStopTransaction"[..0]; }
    static lemma NextAboveLogStatusNotification(m: Action)
      requires m.LogStatusNotification?
      ensures m.Rank() + 1 < Size && AtRank(m.Rank()) == Some(m)
      ensures m.Next().Some? && m.Next().value.Rank() == m.Rank() + 1
      ensures Below(m.ToWire(), m.Next().value.ToWire())
    {
      RankOfLogStatusNotification(m);
      RankOfRemoteStopTransaction(m.Next().value);
      WireOfLogStatusNotification(m);
      WireOfRemoteStopTransaction(m.Next().value);
      PrecedesLogStatusNotification();
    }

    static lemma WireOfMeterValues(m: Action) requires m.MeterValues? ensures m.ToWire() == "MeterValues" { }
    static lemma RankOfMeterValues(m: Action) requires m.MeterValues? ensures m.Rank() == 6 && m.Next() == Some(Action.DataTransfer) && AtRank(6) == Some(Action.MeterValues) { }
    static lemma PrecedesMeterValues() ensures Below("MeterValues", "DataTransfer") { }
    static lemma NextAboveMeterValues(m: Action)
      requires m.MeterValues?
      ensures m.Rank() + 1 < Size && AtRank(m.Rank()) == Some(m)
      ensures m.Next().Some? && m.Next().value.Rank() == m.Rank() + 1
      ensures Below(m.ToWire(), m.Next().value.ToWire())
    {
      RankOfMeterValues(m);
      RankOfDataTransfer(m.Next().value);
      WireOfMeterValues(m);
      WireOfDataTransfer(m.Next().value);
      PrecedesMeterValues();
    }

    static lemma WireOfRemoteStartTransaction(m: Action) requires m.RemoteStartTransaction? ensures m.ToWire() == "RemoteStartTransaction" { }
    static lemma RankOfRemoteStartTransaction(m: Action) requires m.RemoteStartTransaction? ensures m.Rank() == 33 && m.Next() == Some(Action.SecurityEventNotification) && AtRank(33) == Some(Action.RemoteStartTransaction) { }
    static lemma PrecedesRemoteStartTransaction() ensures Below("RemoteStartTransaction", "SecurityEventNotification") { }
    static lemma NextAboveRemoteStartTransaction(m: Action)
      requires m.RemoteStartTransaction?
      ensures m.Rank() + 1 < Size && AtRank(m.Rank()) == Some(m)
      ensures m.Next().Some? && m.Next().value.Rank() == m.Rank() + 1
      ensures Below(m.ToWire(), m.Next().value.ToWire())
    {
      RankOfRemoteStartTransaction(m);
      RankOfSecurityEventNotification(m.Next().value);
      WireOfRemoteStartTransaction(m);
      WireOfSecurityEventNotification(m.Next().value);
      PrecedesRemoteStartTransaction();
    }

    static lemma WireOfRemoteStopTransaction(m: Action) requires m.RemoteStopTransaction? ensures m.ToWire() == "RemoteStopTransaction" { }
    static lemma RankOfRemoteStopTransaction(m: Action) requires m.RemoteStopTransaction? ensures m.Rank() == 31 && m.Next() == Some(Action.ExtendedTriggerMessage) && AtRank(31) == Some(Action.RemoteStopTransaction) { }
    static lemma PrecedesRemoteStopTransaction() ensures Below("RemoteStopTransaction", "ExtendedTriggerMessage") { }
    static lemma NextAboveRemoteStopTransaction(m: Action)
      requires m.RemoteStopTransaction?
      ensures m.Rank() + 1 < Size && AtRank(m.Rank()) == Some(m)
      ensures m.Next().Some? && m.Next().value.Rank() == m.Rank() + 1
      ensures Below(m.ToWire(), m.Next().value.ToWire())
    {
      RankOfRemoteStopTransaction(m);
      RankOfExtendedTriggerMessage(m.Next().value);
      WireOfRemoteStopTransaction(m);
      WireOfExtendedTriggerMessage(m.Next().value);
      PrecedesRemoteStopTransaction();
    }

    static lemma WireOfReserveNow(m: Action) requires m.ReserveNow? ensures m.ToWire() == "ReserveNow" { }
    static lemma RankOfReserveNow(m: Action) requires m.ReserveNow? ensures m.Rank() == 5 && m.Next() == Some(Action.MeterValues) && AtRank(5) == Some(Action.ReserveNow) { }
    static lemma PrecedesReserveNow() ensures Below("ReserveNow", "MeterValues") { }
    static lemma NextAboveReserveNow(m: Action)
      requires m.ReserveNow?
      ensures m.Rank() + 1 < Size && AtRank(m.Rank()) == Some(m)
      ensures m.Next().Some? && m.Next().value.Rank() == m.Rank() + 1
      ensures Below(m.ToWire(), m.Next().value.ToWire())
    {
      RankOfReserveNow(m);
      RankOfMeterValues(m.Next().value);
      WireOfReserveNow(m);
      WireOfMeterValues(m.Next().value);
      PrecedesReserveNow();
    }

    static lemma WireOfReset(m: Action) requires m.Reset? ensures m.ToWire() == "Reset" { }
    static lemma RankOfReset(m: Action) requires m.Reset? ensures m.Rank() == 0 && m.Next() == Some(Action.GetLog) && AtRank(0) == Some(Action.Reset) { }
    static lemma PrecedesReset() ensures Below("Reset", "GetLog") { }
    static lemma NextAboveReset(m: Action)
      requires m.Reset?
      ensures m.Rank() + 1 < Size && AtRank(m.Rank()) == Some(m)
      ensures m.Next().Some? && m.Next().value.Rank() == m.Rank() + 1
      ensures Below(m.ToWire(), m.Next().value.ToWire())
    {
      RankOfReset(m);
      RankOfGetLog(m.Next().value);
      WireOfReset(m);
      WireOfGetLog(m.Next().value);
      PrecedesReset();
    }

    static lemma WireOfSecurityEventNotification(m: Action) requires m.SecurityEventNotification? ensures m.ToWire() == "SecurityEventNotification" { }
    static lemma RankOfSecurityEventNotification(m: Action) requires m.SecurityEventNotification? ensures m.Rank() == 34 && m.Next() == Some(Action.FirmwareStatusNotification) && AtRank(34) == Some(Action.SecurityEventNotification) { }
    static lemma PrecedesSecurityEventNotification() ensures Below("SecurityEventNotification", "FirmwareStatusNotification") { }
    static lemma NextAboveSecurityEventNotification(m: Action)
      requires m.SecurityEventNotification?
      ensures m.Rank() + 1 < Size && AtRank(m.Rank()) == Some(m)
      ensures m.Next().Some? && m.Next().value.Rank() == m.Rank() + 1
      ensures Below(m.ToWire(), m.Next().value.ToWire())
    {
      RankOfSecurityEventNotification(m);
      RankOfFirmwareStatusNotification(m.Next().value);
      WireOfSecurityEventNotification(m);
      WireOfFirmwareStatusNotification(m.Next().value);
      PrecedesSecurityEventNotification();
    }

    static lemma WireOfSendLocalList(m: Action) requires m.SendLocalList? ensures m.ToWire() == "SendLocalList" { }
    static lemma RankOfSendLocalList(m: Action) requires m.SendLocalList? ensures m.Rank() == 8 && m.Next() == Some(Action.GetDiagnostics) && AtRank(8) == Some(Action.SendLocalList) { }
    static lemma PrecedesSendLocalList() ensures Below("SendLocalList", "GetDiagnostics") { }
    static lemma NextAboveSendLocalList(m: Action)
      requires m.SendLocalList?
      ensures m.Rank() + 1 < Size && AtRank(m.Rank()) == Some(m)
      ensures m.Next().Some? && m.Next().value.Rank() == m.Rank() + 1
      ensures Below(m.ToWire(), m.Next().value.ToWire())
    {
      RankOfSendLocalList(m);
      RankOfGetDiagnostics(m.Next().value);
      WireOfSendLocalList(m);
      WireOfGetDiagnostics(m.Next().value);
      PrecedesSendLocalList();
    }

    static lemma WireOfSetChargingProfile(m: Action) requires m.SetChargingProfile? ensures m.ToWire() == "SetChargingProfile" { }
    static lemma RankOfSetChargingProfile(m: Action) requires m.SetChargingProfile? ensures m.Rank() == 23 && m.Next() == Some(Action.StatusNotification) && AtRank(23) == Some(Action.SetChargingProfile) { }
    static lemma PrecedesSetChargingProfile() ensures Below("SetChargingProfile", "StatusNotification") { assert "SetChargingProfile"[..1] == "StatusNotification"[..1]; }
    static lemma NextAboveSetChargingProfile(m: Action)
      requires m.SetChargingProfile?
      ensures m.Rank() + 1 < Size && AtRank(m.Rank()) == Some(m)
      ensures m.Next().Some? && m.Next().value.Rank() == m.Rank() + 1
      ensures Below(m.ToWire(), m.Next().value.ToWire())
    {
      RankOfSetChargingProfile(m);
      RankOfStatusNotification(m.Next().value);
      WireOfSetChargingProfile(m);
      WireOfStatusNotification(m.Next().value);
      PrecedesSetChargingProfile();
    }

    static lemma WireOfSignCertificate(m: Action) requires m.SignCertificate? ensures m.ToWire() == "SignCertificate" { }
    static lemma RankOfSignCertificate(m: Action) requires m.SignCertificate? ensures m.Rank() == 12 && m.Next() == Some(Action.StopTransaction) && AtRank(12) == Some(Action.SignCertificate) { }
    static lemma PrecedesSignCertificate() ensures Below("SignCertificate", "StopTransaction") { assert "SignCertificate"[..1] == "StopTransaction"[..1]; }
    static lemma NextAboveSignCertificate(m: Action)
      requires m.SignCertificate?
      ensures m.Rank() + 1 < Size && AtRank(m.Rank()) == Some(m)
      ensures m.Next().Some? && m.Next().value.Rank() == m.Rank() + 1
      ensures Below(m.ToWire(), m.Next().value.ToWire())
    {
      RankOfSignCertificate(m);
      RankOfStopTransaction(m.Next().value);
      WireOfSignCertificate(m);
      WireOfStopTransaction(m.Next().value);
      PrecedesSignCertificate();
    }

    static lemma WireOfSignedFirmwareStatusNotification(m: Action) requires m.SignedFirmwareStatusNotification? ensures m.ToWire() == "SignedFirmwareStatusNotification" { }
    static lemma RankOfSignedFirmwareStatusNotification(m: Action) requires m.SignedFirmwareStatusNotification? ensures m.Rank() == 38 && m.Next() == None && AtRank(38) == Some(Action.SignedFirmwareStatusNotification) { }

    static lemma WireOfSignedUpdateFirmware(m: Action) requires m.SignedUpdateFirmware? ensures m.ToWire() == "SignedUpdateFirmware" { }
    static lemma RankOfSignedUpdateFirmware(m: Action) requires m.SignedUpdateFirmware? ensures m.Rank() == 29 && m.Next() == Some(Action.LogStatusNotification) && AtRank(29) == Some(Action.SignedUpdateFirmware) { }
    static lemma PrecedesSignedUpdateFirmware() ensures Below("SignedUpdateFirmware", "LogStatusNotification") { }
    static lemma NextAboveSignedUpdateFirmware(m: Action)
      requires m.SignedUpdateFirmware?
      ensures m.Rank() + 1 < Size && AtRank(m.Rank()) == Some(m)
      ensures m.Next().Some? && m.Next().value.Rank() == m.Rank() + 1
      ensures Below(m.ToWire(), m.Next().value.ToWire())
    {
      RankOfSignedUpdateFirmware(m);
      RankOfLogStatusNotification(m.Next().value);
      WireOfSignedUpdateFirmware(m);
      WireOfLogStatusNotification(m.Next().value);
      PrecedesSignedUpdateFirmware();
    }

    static lemma WireOfStartTransaction(m: Action) requires m.StartTransaction? ensures m.ToWire() == "StartTransaction" { }
    static lemma RankOfStartTransaction(m: Action) requires m.StartTransaction? ensures m.Rank() == 17 && m.Next() == Some(Action.CancelReservation) && AtRank(17) == Some(Action.StartTransaction) { }
    static lemma PrecedesStartTransaction() ensures Below("StartTransaction", "CancelReservation") { }
    static lemma NextAboveStartTransaction(m: Action)
      requires m.StartTransaction?
      ensures m.Rank() + 1 < Size && AtRank(m.Rank()) == Some(m)
      ensures m.Next().Some? && m.Next().value.Rank() == m.Rank() + 1
      ensures Below(m.ToWire(), m.Next().value.ToWire())
    {
      RankOfStartTransaction(m);
      RankOfCancelReservation(m.Next().value);
      WireOfStartTransaction(m);
      WireOfCancelReservation(m.Next().value);
      PrecedesStartTransaction();
    }

    static lemma WireOfStatusNotification(m: Action) requires m.StatusNotification? ensures m.ToWire() == "StatusNotification" { }
    static lemma RankOfStatusNotification(m: Action) requires m.StatusNotification? ensures m.Rank() == 24 && m.Next() == Some(Action.ChangeConfiguration) && AtRank(24) == Some(Action.StatusNotification) { }
    static lemma PrecedesStatusNotification() ensures Below("StatusNotification", "ChangeConfiguration") { }
    static lemma NextAboveStatusNotification(m: Action)
      requires m.StatusNotification?
      ensures m.Rank() + 1 < Size && AtRank(m.Rank()) == Some(m)
      ensures m.Next().Some? && m.Next().value.Rank() == m.Rank() + 1
      ensures Below(m.ToWire(), m.Next().value.ToWire())
    {
      RankOfStatusNotification(m);
      RankOfChangeConfiguration(m.Next().value);
      WireOfStatusNotification(m);
      WireOfChangeConfiguration(m.Next().value);
      PrecedesStatusNotification();
    }

    static lemma WireOfStopTransaction(m: Action) requires m.StopTransaction? ensures m.ToWire() == "StopTransaction" { }
    static lemma RankOfStopTransaction(m: Action) requires m.StopTransaction? ensures m.Rank() == 13 && m.Next() == Some(Action.UnlockConnector) && AtRank(13) == Some(Action.StopTransaction) { }
    static lemma PrecedesStopTransaction() ensures Below("StopTransaction", "UnlockConnector") { assert "StopTransaction"[..0] == "UnlockConnector"[..0]; }
    static lemma NextAboveStopTransaction(m: Action)
      requires m.StopTransaction?
      ensures m.Rank() + 1 < Size && AtRank(m.Rank()) == Some(m)
      ensures m.Next().Some? && m.Next().value.Rank() == m.Rank() + 1
      ensures Below(m.ToWire(), m.Next().value.ToWire())
    {
      RankOfStopTransaction(m);
      RankOfUnlockConnector(m.Next().value);
      WireOfStopTransaction(m);
      WireOfUnlockConnector(m.Next().value);
      PrecedesStopTransaction();
    }

    static lemma WireOfTriggerMessage(m: Action) requires m.TriggerMessage? ensures m.ToWire() == "TriggerMessage" { }
    static lemma RankOfTriggerMessage(m: Action) requires m.TriggerMessage? ensures m.Rank() == 10 && m.Next() == Some(Action.UpdateFirmware) && AtRank(10) == Some(Action.TriggerMessage) { }
    static lemma PrecedesTriggerMessage() ensures Below("TriggerMessage", "UpdateFirmware") { assert "TriggerMessage"[..0] == "UpdateFirmware"[..0]; }
    static lemma NextAboveTriggerMessage(m: Action)
      requires m.TriggerMessage?
      ensures m.Rank() + 1 < Size && AtRank(m.Rank()) == Some(m)
      ensures m.Next().Some? && m.Next().value.Rank() == m.Rank() + 1
      ensures Below(m.ToWire(), m.Next().value.ToWire())
    {
      RankOfTriggerMessage(m);
      RankOfUpdateFirmware(m.Next().value);
      WireOfTriggerMessage(m);
      WireOfUpdateFirmware(m.Next().value);
      PrecedesTriggerMessage();
    }

    static lemma WireOfUnlockConnector(m: Action) requires m.UnlockConnector? ensures m.ToWire() == "UnlockConnector" { }
    static lemma RankOfUnlockConnector(m: Action) requires m.UnlockConnector? ensures m.Rank() == 14 && m.Next() == Some(Action.BootNotification) && AtRank(14) == Some(Action.UnlockConnector) { }
    static lemma PrecedesUnlockConnector() ensures Below("UnlockConnector", "BootNotification") { }
    static lemma NextAboveUnlockConnector(m: Action)
      requires m.UnlockConnector?
      ensures m.Rank() + 1 < Size && AtRank(m.Rank()) == Some(m)
      ensures m.Next().Some? && m.Next().value.Rank() == m.Rank() + 1
      ensures Below(m.ToWire(), m.Next().value.ToWire())
    {
      RankOfUnlockConnector(m);
      RankOfBootNotification(m.Next().value);
      WireOfUnlockConnector(m);
      WireOfBootNotification(m.Next().value);
      PrecedesUnlockConnector();
    }

    static lemma WireOfUpdateFirmware(m: Action) requires m.UpdateFirmware? ensures m.ToWire() == "UpdateFirmware" { }
    static lemma RankOfUpdateFirmware(m: Action) requires m.UpdateFirmware? ensures m.Rank() == 11 && m.Next() == Some(Action.SignCertificate) && AtRank(11) == Some(Action.UpdateFirmware) { }
    static lemma PrecedesUpdateFirmware() ensures Below("UpdateFirmware", "SignCertificate") { }
    static lemma NextAboveUpdateFirmware(m: Action)
      requires m.UpdateFirmware?
      ensures m.Rank() + 1 < Size && AtRank(m.Rank()) == Some(m)
      ensures m.Next().Some? && m.Next().value.Rank() == m.Rank() + 1
      ensures Below(m.ToWire(), m.Next().value.ToWire())
    {
      RankOfUpdateFirmware(m);
      RankOfSignCertificate(m.Next().value);
      WireOfUpdateFirmware(m);
      WireOfSignCertificate(m.Next().value);
      PrecedesUpdateFirmware();
    }
  }

  /** `AuthorizationStatus`, declared at ocpp/v16/enums.py:55-64. */
  datatype AuthorizationStatus =
    | Accepted
    | Blocked
    | Expired
    | Invalid
    | ConcurrentTx
  {
    /** The member's value, the string sent on the wire. */
    function ToWire(): string {
      match this
      case Accepted => "Accepted"
      case Blocked => "Blocked"
      case Expired => "Expired"
      case Invalid => "Invalid"
      case ConcurrentTx => "ConcurrentTx"
    }

    /** The member whose value is `s`, if there is one: `AuthorizationStatus(s)`. */
    static function FromWire(s: string): (r: Option<AuthorizationStatus>)
      ensures r.Some? ==> r.value.ToWire() == s
      ensures forall m: AuthorizationStatus :: m.ToWire() == s ==> r == Some(m)
    {
      match s
      case "Accepted" => Some(AuthorizationStatus.Accepted)
      case "Blocked" => Some(AuthorizationStatus.Blocked)
      case "Expired" => Some(AuthorizationStatus.Expired)
      case "Invalid" => Some(AuthorizationStatus.Invalid)
      case "ConcurrentTx" => Some(AuthorizationStatus.ConcurrentTx)
      case _ => None
    }
  }

  /** `AvailabilityStatus`, declared at ocpp/v16/enums.py:67-74. */
  datatype AvailabilityStatus =
    | Accepted
    | Rejected
    | Scheduled
  {
    /** The member's value, the string sent on the wire. */
    function ToWire(): string {
      match this
      case Accepted => "Accepted"
      case Rejected => "Rejected"
      case Scheduled => "Scheduled"
    }

    /** The member whose value is `s`, if there is one: `AvailabilityStatus(s)`. */
    static function FromWire(s: string): (r: Option<AvailabilityStatus>)
      ensures r.Some? ==> r.value.ToWire() == s
      ensures forall m: AvailabilityStatus :: m.ToWire() == s ==> r == Some(m)
    {
      match s
      case "Accepted" => Some(AvailabilityStatus.Accepted)
      case "Rejected" => Some(AvailabilityStatus.Rejected)
      case "Scheduled" => Some(AvailabilityStatus.Scheduled)
      case _ => None
    }
  }

  /** `AvailabilityType`, declared at ocpp/v16/enums.py:77-83. */
  datatype AvailabilityType =
    | Inoperative
    | Operative
  {
    /** The member's value, the string sent on the wire. */
    function ToWire(): string {
      match this
      case Inoperative => "Inoperative"
      case Operative => "Operative"
    }

    /** The member whose value is `s`, if there is one: `AvailabilityType(s)`. */
    static function FromWire(s: string): (r: Option<AvailabilityType>)
      ensures r.Some? ==> r.value.ToWire() == s
      ensures forall m: AvailabilityType :: m.ToWire() == s ==> r == Some(m)
    {
      match s
      case "Inoperative" => Some(AvailabilityType.Inoperative)
      case "Operative" => Some(AvailabilityType.Operative)
      case _ => None
    }
  }

  /** `CancelReservationStatus`, declared at ocpp/v16/enums.py:86-92. */
  datatype CancelReservationStatus =
    | Accepted
    | Rejected
  {
    /** The member's value, the string sent on the wire. */
    function ToWire(): string {
      match this
      case Accepted => "Accepted"
      case Rejected => "Rejected"
    }

    /** The member whose value is `s`, if there is one: `CancelReservationStatus(s)`. */
    static function FromWire(s: string): (r: Option<CancelReservationStatus>)
      ensures r.Some? ==> r.value.ToWire() == s
      ensures forall m: CancelReservationStatus :: m.ToWire() == s ==> r == Some(m)
    {
      match s
      case "Accepted" => Some(CancelReservationStatus.Accepted)
      case "Rejected" => Some(CancelReservationStatus.Rejected)
      case _ => None
    }
  }

  /** `CertificateSignedStatus`, declared at ocpp/v16/enums.py:95-101. */
  datatype CertificateSignedStatus =
    | Accepted
    | Rejected
  {
    /** The member's value, the string sent on the wire. */
    function ToWire(): string {
      match this
      case Accepted => "Accepted"
      case Rejected => "Rejected"
    }

    /** The member whose value is `s`, if there is one: `CertificateSignedStatus(s)`. */
    static function FromWire(s: string): (r: Option<CertificateSignedStatus>)
      ensures r.Some? ==> r.value.ToWire() == s
      ensures forall m: CertificateSignedStatus :: m.ToWire() == s ==> r == Some(m)
    {
      match s
      case "Accepted" => Some(CertificateSignedStatus.Accepted)
      case "Rejected" => Some(CertificateSignedStatus.Rejected)
      case _ => None
    }
  }

  /** `CertificateStatus`, declared at ocpp/v16/enums.py:104-111. */
  datatype CertificateStatus =
    | Accepted
    | Rejected
    | Failed
  {
    /** The member's value, the string sent on the wire. */
    function ToWire(): string {
      match this
      case Accepted => "Accepted"
      case Rejected => "Rejected"
      case Failed => "Failed"
    }

    /** The member whose value is `s`, if there is one: `CertificateStatus(s)`. */
    static function FromWire(s: string): (r: Option<CertificateStatus>)
      ensures r.Some? ==> r.value.ToWire() == s
      ensures forall m: CertificateStatus :: m.ToWire() == s ==> r == Some(m)
    {
      match s
      case "Accepted" => Some(CertificateStatus.Accepted)
      case "Rejected" => Some(CertificateStatus.Rejected)
      case "Failed" => Some(CertificateStatus.Failed)
      case _ => None
    }
  }

  /** `CertificateUse`, declared at ocpp/v16/enums.py:114-121. */
  datatype CertificateUse =
    | CentralSystemRootCertificate
    | ManufacturerRootCertificate
  {
    /** The member's value, the string sent on the wire. */
    function ToWire(): string {
      match this
      case CentralSystemRootCertificate => "CentralSystemRootCertificate"
      case ManufacturerRootCertificate => "ManufacturerRootCertificate"
    }

    /** The member whose value is `s`, if there is one: `CertificateUse(s)`. */
    static function FromWire(s: string): (r: Option<CertificateUse>)
      ensures r.Some? ==> r.value.ToWire() == s
      ensures forall m: CertificateUse :: m.ToWire() == s ==> r == Some(m)
    {
      match s
      case "CentralSystemRootCertificate" => Some(CertificateUse.CentralSystemRootCertificate)
      case "ManufacturerRootCertificate" => Some(CertificateUse.ManufacturerRootCertificate)
      case _ => None
    }
  }

  /** `ChargePointErrorCode`, declared at ocpp/v16/enums.py:124-162. */
  datatype ChargePointErrorCode =
    | ConnectorLockFailure
    | EvCommunicationError
    | GroundFailure
    | HighTemperature
    | InternalError
    | LocalListConflict
    | NoError
    | OtherError
    | OverCurrentFailure
    | OverVoltage
    | PowerMeterFailure
    | PowerSwitchFailure
    | ReaderFailure
    | ResetFailure
    | UnderVoltage
    | WeakSignal
  {
    /** The member's value, the string sent on the wire. */
    function ToWire(): string {
      match this
      case ConnectorLockFailure => "ConnectorLockFailure"
      case EvCommunicationError => "EVCommunicationError"
      case GroundFailure => "GroundFailure"
      case HighTemperature => "HighTemperature"
      case InternalError => "InternalError"
      case LocalListConflict => "LocalListConflict"
      case NoError => "NoError"
      case OtherError => "OtherError"
      case OverCurrentFailure => "OverCurrentFailure"
      case OverVoltage => "OverVoltage"
      case PowerMeterFailure => "PowerMeterFailure"
      case PowerSwitchFailure => "PowerSwitchFailure"
      case ReaderFailure => "ReaderFailure"
      case ResetFailure => "ResetFailure"
      case UnderVoltage => "UnderVoltage"
      case WeakSignal => "WeakSignal"
    }

    /** The member whose value is `s`, if there is one: `ChargePointErrorCode(s)`. */
    static function FromWire(s: string): (r: Option<ChargePointErrorCode>)
      ensures r.Some? ==> r.value.ToWire() == s
      ensures forall m: ChargePointErrorCode :: m.ToWire() == s ==> r == Some(m)
    {
      match s
      case "ConnectorLockFailure" => Some(ChargePointErrorCode.ConnectorLockFailure)
      case "EVCommunicationError" => Some(ChargePointErrorCode.EvCommunicationError)
      case "GroundFailure" => Some(ChargePointErrorCode.GroundFailure)
      case "HighTemperature" => Some(ChargePointErrorCode.HighTemperature)
      case "InternalError" => Some(ChargePointErrorCode.InternalError)
      case "LocalListConflict" => Some(ChargePointErrorCode.LocalListConflict)
      case "NoError" => Some(ChargePointErrorCode.NoError)
      case "OtherError" => Some(ChargePointErrorCode.OtherError)
      case "OverCurrentFailure" => Some(ChargePointErrorCode.OverCurrentFailure)
      case "OverVoltage" => Some(ChargePointErrorCode.OverVoltage)
      case "PowerMeterFailure" => Some(ChargePointErrorCode.PowerMeterFailure)
      case "PowerSwitchFailure" => Some(ChargePointErrorCode.PowerSwitchFailure)
      case "ReaderFailure" => Some(ChargePointErrorCode.ReaderFailure)
      case "ResetFailure" => Some(ChargePointErrorCode.ResetFailure)
      case "UnderVoltage" => Some(ChargePointErrorCode.UnderVoltage)
      case "WeakSignal" => Some(ChargePointErrorCode.WeakSignal)
      case _ => None
    }

    /** The deprecated names the class also declares, each with its declared value. */
    static const Deprecated: seq<(string, string)> := [("connectorLockFailure", "ConnectorLockFailure"), ("evCommunicationError", "EVCommunicationError"), ("groundFailure", "GroundFailure"), ("highTemperature", "HighTemperature"), ("internalError", "InternalError"), ("localListConflict", "LocalListConflict"), ("noError", "NoError"), ("otherError", "OtherError"), ("overCurrentFailure", "OverCurrentFailure"), ("overVoltage", "OverVoltage"), ("powerMeterFailure", "PowerMeterFailure"), ("powerSwitchFailure", "PowerSwitchFailure"), ("readerFailure", "ReaderFailure"), ("resetFailure", "ResetFailure"), ("underVoltage", "UnderVoltage"), ("weakSignal", "WeakSignal")]

    /** Every deprecated name carries the value of a member, so it is an alias of that member. */
    static lemma DeprecatedNamesAreAliases()
      ensures forall alias, value :: (alias, value) in Deprecated ==> exists m: ChargePointErrorCode :: m.ToWire() == value
    {
      assert ChargePointErrorCode.ConnectorLockFailure.ToWire() == "ConnectorLockFailure";
      assert ChargePointErrorCode.EvCommunicationError.ToWire() == "EVCommunicationError";
      assert ChargePointErrorCode.GroundFailure.ToWire() == "GroundFailure";
      assert ChargePointErrorCode.HighTemperature.ToWire() == "HighTemperature";
      assert ChargePointErrorCode.InternalError.ToWire() == "InternalError";
      assert ChargePointErrorCode.LocalListConflict.ToWire() == "LocalListConflict";
      assert ChargePointErrorCode.NoError.ToWire() == "NoError";
      assert ChargePointErrorCode.OtherError.ToWire() == "OtherError";
      assert ChargePointErrorCode.OverCurrentFailure.ToWire() == "OverCurrentFailure";
      assert ChargePointErrorCode.OverVoltage.ToWire() == "OverVoltage";
      assert ChargePointErrorCode.PowerMeterFailure.ToWire() == "PowerMeterFailure";
      assert ChargePointErrorCode.PowerSwitchFailure.ToWire() == "PowerSwitchFailure";
      assert ChargePointErrorCode.ReaderFailure.ToWire() == "ReaderFailure";
      assert ChargePointErrorCode.ResetFailure.ToWire() == "ResetFailure";
      assert ChargePointErrorCode.UnderVoltage.ToWire() == "UnderVoltage";
      assert ChargePointErrorCode.WeakSignal.ToWire() == "WeakSignal";
    }
  }

  /** `ChargePointStatus`, declared at ocpp/v16/enums.py:165-189. */
  datatype ChargePointStatus =
    | Available
    | Preparing
    | Charging
    | SuspendedEvse
    | SuspendedEv
    | Finishing
    | Reserved
    | Unavailable
    | Faulted
  {
    /** The member's value, the string sent on the wire. */
    function ToWire(): string {
      match this
      case Available => "Available"
      case Preparing => "Preparing"
      case Charging => "Charging"
      case SuspendedEvse => "SuspendedEVSE"
      case SuspendedEv => "SuspendedEV"
      case Finishing => "Finishing"
      case Reserved => "Reserved"
      case Unavailable => "Unavailable"
      case Faulted => "Faulted"
    }

    /** The member whose value is `s`, if there is one: `ChargePointStatus(s)`. */
    static function FromWire(s: string): (r: Option<ChargePointStatus>)
      ensures r.Some? ==> r.value.ToWire() == s
      ensures forall m: ChargePointStatus :: m.ToWire() == s ==> r == Some(m)
    {
      match s
      case "Available" => Some(ChargePointStatus.Available)
      case "Preparing" => Some(ChargePointStatus.Preparing)
      case "Charging" => Some(ChargePointStatus.Charging)
      case "SuspendedEVSE" => Some(ChargePointStatus.SuspendedEvse)
      case "SuspendedEV" => Some(ChargePointStatus.SuspendedEv)
      case "Finishing" => Some(ChargePointStatus.Finishing)
      case "Reserved" => Some(ChargePointStatus.Reserved)
      case "Unavailable" => Some(ChargePointStatus.Unavailable)
      case "Faulted" => Some(ChargePointStatus.Faulted)
      case _ => None
    }

    /** The deprecated names the class also declares, each with its declared value. */
    static const Deprecated: seq<(string, string)> := [("suspendedevse", "SuspendedEVSE"), ("suspendedev", "SuspendedEV")]

    /** Every deprecated name carries the value of a member, so it is an alias of that member. */
    static lemma DeprecatedNamesAreAliases()
      ensures forall alias, value :: (alias, value) in Deprecated ==> exists m: ChargePointStatus :: m.ToWire() == value
    {
      assert ChargePointStatus.SuspendedEvse.ToWire() == "SuspendedEVSE";
      assert ChargePointStatus.SuspendedEv.ToWire() == "SuspendedEV";
    }
  }

  /** `ChargingProfileKindType`, declared at ocpp/v16/enums.py:192-203. */
  datatype ChargingProfileKindType =
    | Absolute
    | Recurring
    | Relative
  {
    /** The member's value, the string sent on the wire. */
    function ToWire(): string {
      match this
      case Absolute => "Absolute"
      case Recurring => "Recurring"
      case Relative => "Relative"
    }

    /** The member whose value is `s`, if there is one: `ChargingProfileKindType(s)`. */
    static function FromWire(s: string): (r: Option<ChargingProfileKindType>)
      ensures r.Some? ==> r.value.ToWire() == s
      ensures forall m: ChargingProfileKindType :: m.ToWire() == s ==> r == Some(m)
    {
      match s
      case "Absolute" => Some(ChargingProfileKindType.Absolute)
      case "Recurring" => Some(ChargingProfileKindType.Recurring)
      case "Relative" => Some(ChargingProfileKindType.Relative)
      case _ => None
    }
  }

  /** `ChargingProfilePurposeType`, declared at ocpp/v16/enums.py:206-249. */
  datatype ChargingProfilePurposeType =
    | ChargePointMaxProfile
    | TxDefaultProfile
    | TxProfile
  {
    /** The member's value, the string sent on the wire. */
    function ToWire(): string {
      match this
      case ChargePointMaxProfile => "ChargePointMaxProfile"
      case TxDefaultProfile => "TxDefaultProfile"
      case TxProfile => "TxProfile"
    }

    /** The member whose value is `s`, if there is one: `ChargingProfilePurposeType(s)`. */
    static function FromWire(s: string): (r: Option<ChargingProfilePurposeType>)
      ensures r.Some? ==> r.value.ToWire() == s
      ensures forall m: ChargingProfilePurposeType :: m.ToWire() == s ==> r == Some(m)
    {
      match s
      case "ChargePointMaxProfile" => Some(ChargingProfilePurposeType.ChargePointMaxProfile)
      case "TxDefaultProfile" => Some(ChargingProfilePurposeType.TxDefaultProfile)
      case "TxProfile" => Some(ChargingProfilePurposeType.TxProfile)
      case _ => None
    }

    /** The deprecated names the class also declares, each with its declared value. */
    static const Deprecated: seq<(string, string)> := [("chargepointmaxprofile", "ChargePointMaxProfile"), ("txdefaultprofile", "TxDefaultProfile"), ("txprofile", "TxProfile")]

    /** Every deprecated name carries the value of a member, so it is an alias of that member. */
    static lemma DeprecatedNamesAreAliases()
      ensures forall alias, value :: (alias, value) in Deprecated ==> exists m: ChargingProfilePurposeType :: m.ToWire() == value
    {
      assert ChargingProfilePurposeType.ChargePointMaxProfile.ToWire() == "ChargePointMaxProfile";
      assert ChargingProfilePurposeType.TxDefaultProfile.ToWire() == "TxDefaultProfile";
      assert ChargingProfilePurposeType.TxProfile.ToWire() == "TxProfile";
    }
  }

  /** `ChargingProfileStatus`, declared at ocpp/v16/enums.py:252-261. */
  datatype ChargingProfileStatus =
    | Accepted
    | Rejected
    | NotSupported
  {
    /** The member's value, the string sent on the wire. */
    function ToWire(): string {
      match this
      case Accepted => "Accepted"
      case Rejected => "Rejected"
      case NotSupported => "NotSupported"
    }

    /** The member whose value is `s`, if there is one: `ChargingProfileStatus(s)`. */
    static function FromWire(s: string): (r: Option<ChargingProfileStatus>)
      ensures r.Some? ==> r.value.ToWire() == s
      ensures forall m: ChargingProfileStatus :: m.ToWire() == s ==> r == Some(m)
    {
      match s
      case "Accepted" => Some(ChargingProfileStatus.Accepted)
      case "Rejected" => Some(ChargingProfileStatus.Rejected)
      case "NotSupported" => Some(ChargingProfileStatus.NotSupported)
      case _ => None
    }

    /** The deprecated names the class also declares, each with its declared value. */
    static const Deprecated: seq<(string, string)> := [("notSupported", "NotSupported")]

    /** Every deprecated name carries the value of a member, so it is an alias of that member. */
    static lemma DeprecatedNamesAreAliases()
      ensures forall alias, value :: (alias, value) in Deprecated ==> exists m: ChargingProfileStatus :: m.ToWire() == value
    {
      assert ChargingProfileStatus.NotSupported.ToWire() == "NotSupported";
    }
  }

  /** `ChargingRateUnitType`, declared at ocpp/v16/enums.py:264-271. */
  datatype ChargingRateUnitType =
    | Watts
    | Amps
  {
    /** The member's value, the string sent on the wire. */
    function ToWire(): string {
      match this
      case Watts => "W"
      case Amps => "A"
    }

    /** The member whose value is `s`, if there is one: `ChargingRateUnitType(s)`. */
    static function FromWire(s: string): (r: Option<ChargingRateUnitType>)
      ensures r.Some? ==> r.value.ToWire() == s
      ensures forall m: ChargingRateUnitType :: m.ToWire() == s ==> r == Some(m)
    {
      match s
      case "W" => Some(ChargingRateUnitType.Watts)
      case "A" => Some(ChargingRateUnitType.Amps)
      case _ => None
    }
  }

  /** `ClearCacheStatus`, declared at ocpp/v16/enums.py:286-292. */
  datatype ClearCacheStatus =
    | Accepted
    | Rejected
  {
    /** The member's value, the string sent on the wire. */
    function ToWire(): string {
      match this
      case Accepted => "Accepted"
      case Rejected => "Rejected"
    }

    /** The member whose value is `s`, if there is one: `ClearCacheStatus(s)`. */
    static function FromWire(s: string): (r: Option<ClearCacheStatus>)
      ensures r.Some? ==> r.value.ToWire() == s
      ensures forall m: ClearCacheStatus :: m.ToWire() == s ==> r == Some(m)
    {
      match s
      case "Accepted" => Some(ClearCacheStatus.Accepted)
      case "Rejected" => Some(ClearCacheStatus.Rejected)
      case _ => None
    }
  }

  /** `ClearChargingProfileStatus`, declared at ocpp/v16/enums.py:295-301. */
  datatype ClearChargingProfileStatus =
    | Accepted
    | Unknown
  {
    /** The member's value, the string sent on the wire. */
    function ToWire(): string {
      match this
      case Accepted => "Accepted"
      case Unknown => "Unknown"
    }

    /** The member whose value is `s`, if there is one: `ClearChargingProfileStatus(s)`. */
    static function FromWire(s: string): (r: Option<ClearChargingProfileStatus>)
      ensures r.Some? ==> r.value.ToWire() == s
      ensures forall m: ClearChargingProfileStatus :: m.ToWire() == s ==> r == Some(m)
    {
      match s
      case "Accepted" => Some(ClearChargingProfileStatus.Accepted)
      case "Unknown" => Some(ClearChargingProfileStatus.Unknown)
      case _ => None
    }
  }

  /** `ConfigurationStatus`, declared at ocpp/v16/enums.py:304-316. */
  datatype ConfigurationStatus =
    | Accepted
    | Rejected
    | RebootRequired
    | NotSupported
  {
    /** The member's value, the string sent on the wire. */
    function ToWire(): string {
      match this
      case Accepted => "Accepted"
      case Rejected => "Rejected"
      case RebootRequired => "RebootRequired"
      case NotSupported => "NotSupported"
    }

    /** The member whose value is `s`, if there is one: `ConfigurationStatus(s)`. */
    static function FromWire(s: string): (r: Option<ConfigurationStatus>)
      ensures r.Some? ==> r.value.ToWire() == s
      ensures forall m: ConfigurationStatus :: m.ToWire() == s ==> r == Some(m)
    {
      match s
      case "Accepted" => Some(ConfigurationStatus.Accepted)
      case "Rejected" => Some(ConfigurationStatus.Rejected)
      case "RebootRequired" => Some(ConfigurationStatus.RebootRequired)
      case "NotSupported" => Some(ConfigurationStatus.NotSupported)
      case _ => None
    }

    /** The deprecated names the class also declares, each with its declared value. */
    static const Deprecated: seq<(string, string)> := [("rebootRequired", "RebootRequired"), ("notSupported", "NotSupported")]

    /** Every deprecated name carries the value of a member, so it is an alias of that member. */
    static lemma DeprecatedNamesAreAliases()
      ensures forall alias, value :: (alias, value) in Deprecated ==> exists m: ConfigurationStatus :: m.ToWire() == value
    {
      assert ConfigurationStatus.RebootRequired.ToWire() == "RebootRequired";
      assert ConfigurationStatus.NotSupported.ToWire() == "NotSupported";
    }
  }

  /** `ConfigurationKey`, declared at ocpp/v16/enums.py:319-390. */
  datatype ConfigurationKey =
    | AllowOfflineTxForUnknownId
    | AuthorizationCacheEnabled
    | AuthorizeRemoteTxRequests
    | BlinkRepeat
    | ClockAlignedDataInterval
    | ConnectionTimeOut
    | ConnectorPhaseRotation
    | ConnectorPhaseRotationMaxLength
    | GetConfigurationMaxKeys
    | HeartbeatInterval
    | LightIntensity
    | LocalAuthorizeOffline
    | LocalPreAuthorize
    | MaxEnergyOnInvalidId
    | MeterValuesAlignedData
    | MeterValuesAlignedDataMaxLength
    | MeterValuesSampledData
    | MeterValuesSampledDataMaxLength
    | MeterValueSampleInterval
    | MinimumStatusDuration
    | NumberOfConnectors
    | ResetRetries
    | StopTransactionOnEvSideDisconnect
    | StopTransactionOnInvalidId
    | StopTxnAlignedData
    | StopTxnAlignedDataMaxLength
    | StopTxnSampledData
    | StopTxnSampledDataMaxLength
    | SupportedFeatureProfiles
    | SupportedFeatureProfilesMaxLength
    | TransactionMessageAttempts
    | TransactionMessageRetryInterval
    | UnlockConnectorOnEvSideDisconnect
    | WebSocketPingInterval
    | LocalAuthListEnabled
    | LocalAuthListMaxLength
    | SendLocalListMaxLength
    | ReserveConnectorZeroSupported
    | ChargeProfileMaxStackLevel
    | ChargingScheduleAllowedChargingRateUnit
    | ChargingScheduleMaxPeriods
    | ConnectorSwitch3to1PhaseSupported
    | MaxChargingProfilesInstalled
    | CentralContractValidationAllowed
    | CertificateSignedMaxChainSize
    | CertSigningWaitMinimum
    | CertSigningRepeatTimes
    | CertificateStoreMaxLength
    | ContractValidationOffline
    | Iso15118PncEnabled
    | AdditionalRootCertificateCheck
    | AuthorizationKey
    | CpoName
    | SecurityProfile
  {
    /** The member's value, the string sent on the wire. */
    function ToWire(): string {
      match this
      case AllowOfflineTxForUnknownId => "AllowOfflineTxForUnknownId"
      case AuthorizationCacheEnabled => "AuthorizationCacheEnabled"
      case AuthorizeRemoteTxRequests => "AuthorizeRemoteTxRequests"
      case BlinkRepeat => "BlinkRepeat"
      case ClockAlignedDataInterval => "ClockAlignedDataInterval"
      case ConnectionTimeOut => "ConnectionTimeOut"
      case ConnectorPhaseRotation => "ConnectorPhaseRotation"
      case ConnectorPhaseRotationMaxLength => "ConnectorPhaseRotationMaxLength"
      case GetConfigurationMaxKeys => "GetConfigurationMaxKeys"
      case HeartbeatInterval => "HeartbeatInterval"
      case LightIntensity => "LightIntensity"
      case LocalAuthorizeOffline => "LocalAuthorizeOffline"
      case LocalPreAuthorize => "LocalPreAuthorize"
      case MaxEnergyOnInvalidId => "MaxEnergyOnInvalidId"
      case MeterValuesAlignedData => "MeterValuesAlignedData"
      case MeterValuesAlignedDataMaxLength => "MeterValuesAlignedDataMaxLength"
      case MeterValuesSampledData => "MeterValuesSampledData"
      case MeterValuesSampledDataMaxLength => "MeterValuesSampledDataMaxLength"
      case MeterValueSampleInterval => "MeterValueSampleInterval"
      case MinimumStatusDuration => "MinimumStatusDuration"
      case NumberOfConnectors => "NumberOfConnectors"
      case ResetRetries => "ResetRetries"
      case StopTransactionOnEvSideDisconnect => "StopTransactionOnEVSideDisconnect"
      case StopTransactionOnInvalidId => "StopTransactionOnInvalidId"
      case StopTxnAlignedData => "StopTxnAlignedData"
      case StopTxnAlignedDataMaxLength => "StopTxnAlignedDataMaxLength"
      case StopTxnSampledData => "StopTxnSampledData"
      case StopTxnSampledDataMaxLength => "StopTxnSampledDataMaxLength"
      case SupportedFeatureProfiles => "SupportedFeatureProfiles"
      case SupportedFeatureProfilesMaxLength => "SupportedFeatureProfilesMaxLength"
      case TransactionMessageAttempts => "TransactionMessageAttempts"
      case TransactionMessageRetryInterval => "TransactionMessageRetryInterval"
      case UnlockConnectorOnEvSideDisconnect => "UnlockConnectorOnEVSideDisconnect"
      case WebSocketPingInterval => "WebSocketPingInterval"
      case LocalAuthListEnabled => "LocalAuthListEnabled"
      case LocalAuthListMaxLength => "LocalAuthListMaxLength"
      case SendLocalListMaxLength => "SendLocalListMaxLength"
      case ReserveConnectorZeroSupported => "ReserveConnectorZeroSupported"
      case ChargeProfileMaxStackLevel => "ChargeProfileMaxStackLevel"
      case ChargingScheduleAllowedChargingRateUnit => "ChargingScheduleAllowedChargingRateUnit"
      case ChargingScheduleMaxPeriods => "ChargingScheduleMaxPeriods"
      case ConnectorSwitch3to1PhaseSupported => "ConnectorSwitch3to1PhaseSupported"
      case MaxChargingProfilesInstalled => "MaxChargingProfilesInstalled"
      case CentralContractValidationAllowed => "CentralContractValidationAllowed"
      case CertificateSignedMaxChainSize => "CertificateSignedMaxChainSize"
      case CertSigningWaitMinimum => "CertSigningWaitMinimum"
      case CertSigningRepeatTimes => "CertSigningRepeatTimes"
      case CertificateStoreMaxLength => "CertificateStoreMaxLength"
      case ContractValidationOffline => "ContractValidationOffline"
      case Iso15118PncEnabled => "ISO15118PnCEnabled"
      case AdditionalRootCertificateCheck => "AdditionalRootCertificateCheck"
      case AuthorizationKey => "AuthorizationKey"
      case CpoName => "CpoName"
      case SecurityProfile => "SecurityProfile"
    }

    /** The member's position when the members are sorted by `Below` on their values. */
    function Rank(): nat {
      match this
      case AllowOfflineTxForUnknownId => 33
      case AuthorizationCacheEnabled => 29
      case AuthorizeRemoteTxRequests => 30
      case BlinkRepeat => 1
      case ClockAlignedDataInterval => 26
      case ConnectionTimeOut => 6
      case ConnectorPhaseRotation => 20
      case ConnectorPhaseRotationMaxLength => 44
      case GetConfigurationMaxKeys => 25
      case HeartbeatInterval => 7
      case LightIntensity => 3
      case LocalAuthorizeOffline => 15
      case LocalPreAuthorize => 8
      case MaxEnergyOnInvalidId => 14
      case MeterValuesAlignedData => 22
      case MeterValuesAlignedDataMaxLength => 45
      case MeterValuesSampledData => 23
      case MeterValuesSampledDataMaxLength => 46
      case MeterValueSampleInterval => 27
      case MinimumStatusDuration => 16
      case NumberOfConnectors => 10
      case ResetRetries => 2
      case StopTransactionOnEvSideDisconnect => 50
      case StopTransactionOnInvalidId => 36
      case StopTxnAlignedData => 11
      case StopTxnAlignedDataMaxLength => 38
      case StopTxnSampledData => 12
      case StopTxnSampledDataMaxLength => 39
      case SupportedFeatureProfiles => 28
      case SupportedFeatureProfilesMaxLength => 51
      case TransactionMessageAttempts => 37
      case TransactionMessageRetryInterval => 47
      case UnlockConnectorOnEvSideDisconnect => 52
      case WebSocketPingInterval => 17
      case LocalAuthListEnabled => 13
      case LocalAuthListMaxLength => 21
      case SendLocalListMaxLength => 24
      case ReserveConnectorZeroSupported => 42
      case ChargeProfileMaxStackLevel => 34
      case ChargingScheduleAllowedChargingRateUnit => 53
      case ChargingScheduleMaxPeriods => 35
      case ConnectorSwitch3to1PhaseSupported => 49
      case MaxChargingProfilesInstalled => 40
      case CentralContractValidationAllowed => 48
      case CertificateSignedMaxChainSize => 41
      case CertSigningWaitMinimum => 19
      case CertSigningRepeatTimes => 18
      case CertificateStoreMaxLength => 31
      case ContractValidationOffline => 32
      case Iso15118PncEnabled => 9
      case AdditionalRootCertificateCheck => 43
      case AuthorizationKey => 5
      case CpoName => 0
      case SecurityProfile => 4
    }

    /** The member of the next rank, if any. */
    function Next(): Option<ConfigurationKey> {
      match this
      case AllowOfflineTxForUnknownId => Some(ConfigurationKey.ChargeProfileMaxStackLevel)
      case AuthorizationCacheEnabled => Some(ConfigurationKey.AuthorizeRemoteTxRequests)
      case AuthorizeRemoteTxRequests => Some(ConfigurationKey.CertificateStoreMaxLength)
      case BlinkRepeat => Some(ConfigurationKey.ResetRetries)
      case ClockAlignedDataInterval => Some(ConfigurationKey.MeterValueSampleInterval)
      case ConnectionTimeOut => Some(ConfigurationKey.HeartbeatInterval)
      case ConnectorPhaseRotation => Some(ConfigurationKey.LocalAuthListMaxLength)
      case ConnectorPhaseRotationMaxLength => Some(ConfigurationKey.MeterValuesAlignedDataMaxLength)
      case GetConfigurationMaxKeys => Some(ConfigurationKey.ClockAlignedDataInterval)
      case HeartbeatInterval => Some(ConfigurationKey.LocalPreAuthorize)
      case LightIntensity => Some(ConfigurationKey.SecurityProfile)
      case LocalAuthorizeOffline => Some(ConfigurationKey.MinimumStatusDuration)
      case LocalPreAuthorize => Some(ConfigurationKey.Iso15118PncEnabled)
      case MaxEnergyOnInvalidId => Some(ConfigurationKey.LocalAuthorizeOffline)
      case MeterValuesAlignedData => Some(ConfigurationKey.MeterValuesSampledData)
      case MeterValuesAlignedDataMaxLength => Some(ConfigurationKey.MeterValuesSampledDataMaxLength)
      case MeterValuesSampledData => Some(ConfigurationKey.SendLocalListMaxLength)
      case MeterValuesSampledDataMaxLength => Some(ConfigurationKey.TransactionMessageRetryInterval)
      case MeterValueSampleInterval => Some(ConfigurationKey.SupportedFeatureProfiles)
      case MinimumStatusDuration => Some(ConfigurationKey.WebSocketPingInterval)
      case NumberOfConnectors => Some(ConfigurationKey.StopTxnAlignedData)
      case ResetRetries => Some(ConfigurationKey.LightIntensity)
      case StopTransactionOnEvSideDisconnect => Some(ConfigurationKey.SupportedFeatureProfilesMaxLength)
      case StopTransactionOnInvalidId => Some(ConfigurationKey.TransactionMessageAttempts)
      case StopTxnAlignedData => Some(ConfigurationKey.StopTxnSampledData)
      case StopTxnAlignedDataMaxLength => Some(ConfigurationKey.StopTxnSampledDataMaxLength)
      case StopTxnSampledData => Some(ConfigurationKey.LocalAuthListEnabled)
      case StopTxnSampledDataMaxLength => Some(ConfigurationKey.MaxChargingProfilesInstalled)
      case SupportedFeatureProfiles => Some(ConfigurationKey.AuthorizationCacheEnabled)
      case SupportedFeatureProfilesMaxLength => Some(ConfigurationKey.UnlockConnectorOnEvSideDisconnect)
      case TransactionMessageAttempts => Some(ConfigurationKey.StopTxnAlignedDataMaxLength)
      case TransactionMessageRetryInterval => Some(ConfigurationKey.CentralContractValidationAllowed)
      case UnlockConnectorOnEvSideDisconnect => Some(ConfigurationKey.ChargingScheduleAllowedChargingRateUnit)
      case WebSocketPingInterval => Some(ConfigurationKey.CertSigningRepeatTimes)
      case LocalAuthListEnabled => Some(ConfigurationKey.MaxEnergyOnInvalidId)
      case LocalAuthListMaxLength => Some(ConfigurationKey.MeterValuesAlignedData)
      case SendLocalListMaxLength => Some(ConfigurationKey.GetConfigurationMaxKeys)
      case ReserveConnectorZeroSupported => Some(ConfigurationKey.AdditionalRootCertificateCheck)
      case ChargeProfileMaxStackLevel => Some(ConfigurationKey.ChargingScheduleMaxPeriods)
      case ChargingScheduleAllowedChargingRateUnit => None
      case ChargingScheduleMaxPeriods => Some(ConfigurationKey.StopTransactionOnInvalidId)
      case ConnectorSwitch3to1PhaseSupported => Some(ConfigurationKey.StopTransactionOnEvSideDisconnect)
      case MaxChargingProfilesInstalled => Some(ConfigurationKey.CertificateSignedMaxChainSize)
      case CentralContractValidationAllowed => Some(ConfigurationKey.ConnectorSwitch3to1PhaseSupported)
      case CertificateSignedMaxChainSize => Some(ConfigurationKey.ReserveConnectorZeroSupported)
      case CertSigningWaitMinimum => Some(ConfigurationKey.ConnectorPhaseRotation)
      case CertSigningRepeatTimes => Some(ConfigurationKey.CertSigningWaitMinimum)
      case CertificateStoreMaxLength => Some(ConfigurationKey.ContractValidationOffline)
      case ContractValidationOffline => Some(ConfigurationKey.AllowOfflineTxForUnknownId)
      case Iso15118PncEnabled => Some(ConfigurationKey.NumberOfConnectors)
      case AdditionalRootCertificateCheck => Some(ConfigurationKey.ConnectorPhaseRotationMaxLength)
      case AuthorizationKey => Some(ConfigurationKey.ConnectionTimeOut)
      case CpoName => Some(ConfigurationKey.BlinkRepeat)
      case SecurityProfile => Some(ConfigurationKey.AuthorizationKey)
    }

    /** The member of rank `k`, if any: the inverse of `Rank`. */
    static function AtRank(k: nat): Option<ConfigurationKey> {
      if k == 0 then Some(ConfigurationKey.CpoName)
      else if k == 1 then Some(ConfigurationKey.BlinkRepeat)
      else if k == 2 then Some(ConfigurationKey.ResetRetries)
      else if k == 3 then Some(ConfigurationKey.LightIntensity)
      else if k == 4 then Some(ConfigurationKey.SecurityProfile)
      else if k == 5 then Some(ConfigurationKey.AuthorizationKey)
      else if k == 6 then Some(ConfigurationKey.ConnectionTimeOut)
      else if k == 7 then Some(ConfigurationKey.HeartbeatInterval)
      else if k == 8 then Some(ConfigurationKey.LocalPreAuthorize)
      else if k == 9 then Some(ConfigurationKey.Iso15118PncEnabled)
      else if k == 10 then Some(ConfigurationKey.NumberOfConnectors)
      else if k == 11 then Some(ConfigurationKey.StopTxnAlignedData)
      else if k == 12 then Some(ConfigurationKey.StopTxnSampledData)
      else if k == 13 then Some(ConfigurationKey.LocalAuthListEnabled)
      else if k == 14 then Some(ConfigurationKey.MaxEnergyOnInvalidId)
      else if k == 15 then Some(ConfigurationKey.LocalAuthorizeOffline)
      else if k == 16 then Some(ConfigurationKey.MinimumStatusDuration)
      else if k == 17 then Some(ConfigurationKey.WebSocketPingInterval)
      else if k == 18 then Some(ConfigurationKey.CertSigningRepeatTimes)
      else if k == 19 then Some(ConfigurationKey.CertSigningWaitMinimum)
      else if k == 20 then Some(ConfigurationKey.ConnectorPhaseRotation)
      else if k == 21 then Some(ConfigurationKey.LocalAuthListMaxLength)
      else if k == 22 then Some(ConfigurationKey.MeterValuesAlignedData)
      else if k == 23 then Some(ConfigurationKey.MeterValuesSampledData)
      else if k == 24 then Some(ConfigurationKey.SendLocalListMaxLength)
      else if k == 25 then Some(ConfigurationKey.GetConfigurationMaxKeys)
      else if k == 26 then Some(ConfigurationKey.ClockAlignedDataInterval)
      else if k == 27 then Some(ConfigurationKey.MeterValueSampleInterval)
      else if k == 28 then Some(ConfigurationKey.SupportedFeatureProfiles)
      else if k == 29 then Some(ConfigurationKey.AuthorizationCacheEnabled)
      else if k == 30 then Some(ConfigurationKey.AuthorizeRemoteTxRequests)
      else if k == 31 then Some(ConfigurationKey.CertificateStoreMaxLength)
      else if k == 32 then Some(ConfigurationKey.ContractValidationOffline)
      else if k == 33 then Some(ConfigurationKey.AllowOfflineTxForUnknownId)
      else if k == 34 then Some(ConfigurationKey.ChargeProfileMaxStackLevel)
      else if k == 35 then Some(ConfigurationKey.ChargingScheduleMaxPeriods)
      else if k == 36 then Some(ConfigurationKey.StopTransactionOnInvalidId)
      else if k == 37 then Some(ConfigurationKey.TransactionMessageAttempts)
      else if k == 38 then Some(ConfigurationKey.StopTxnAlignedDataMaxLength)
      else if k == 39 then Some(ConfigurationKey.StopTxnSampledDataMaxLength)
      else if k == 40 then Some(ConfigurationKey.MaxChargingProfilesInstalled)
      else if k == 41 then Some(ConfigurationKey.CertificateSignedMaxChainSize)
      else if k == 42 then Some(ConfigurationKey.ReserveConnectorZeroSupported)
      else if k == 43 then Some(ConfigurationKey.AdditionalRootCertificateCheck)
      else if k == 44 then Some(ConfigurationKey.ConnectorPhaseRotationMaxLength)
      else if k == 45 then Some(ConfigurationKey.MeterValuesAlignedDataMaxLength)
      else if k == 46 then Some(ConfigurationKey.MeterValuesSampledDataMaxLength)
      else if k == 47 then Some(ConfigurationKey.TransactionMessageRetryInterval)
      else if k == 48 then Some(ConfigurationKey.CentralContractValidationAllowed)
      else if k == 49 then Some(ConfigurationKey.ConnectorSwitch3to1PhaseSupported)
      else if k == 50 then Some(ConfigurationKey.StopTransactionOnEvSideDisconnect)
      else if k == 51 then Some(ConfigurationKey.SupportedFeatureProfilesMaxLength)
      else if k == 52 then Some(ConfigurationKey.UnlockConnectorOnEvSideDisconnect)
      else if k == 53 then Some(ConfigurationKey.ChargingScheduleAllowedChargingRateUnit)
      else None
    }

    static const Size := 54
    static const Least := ConfigurationKey.CpoName

    /**
     * The member whose value is `s`, if there is one: `ConfigurationKey(s)`.
     * Completeness is `RoundTrip`.
     */
    static function FromWire(s: string): (r: Option<ConfigurationKey>)
      ensures r.Some? ==> r.value.ToWire() == s
    {
      SearchFrom(Least, s)
    }

    /** The member of rank at least `m.Rank()` whose value is `s`, trying them in rank order. */
    static function SearchFrom(m: ConfigurationKey, s: string): (r: Option<ConfigurationKey>)
      ensures r.Some? ==> r.value.ToWire() == s
      decreases Size - m.Rank()
    {
      if m.ToWire() == s then Some(m)
      else
        match m.Next()
        case None => None
        case Some(n) =>
          NextAbove(m);
          SearchFrom(n, s)
    }

    /** Decoding a member's value gives that member back. */
    static lemma RoundTrip(m: ConfigurationKey)
      ensures FromWire(m.ToWire()) == Some(m)
    {
      SearchFinds(Least, m);
    }

    /** No two members share a value. */
    static lemma WireInjective(a: ConfigurationKey, b: ConfigurationKey)
      ensures a.ToWire() == b.ToWire() ==> a == b
    {
      RoundTrip(a);
      RoundTrip(b);
    }

    /** The search from any rank up to `m`'s finds `m`: no member on the way carries `m`'s value. */
    static lemma {:induction false} SearchFinds(y: ConfigurationKey, m: ConfigurationKey)
      requires y.Rank() <= m.Rank()
      ensures SearchFrom(y, m.ToWire()) == Some(m)
      decreases m.Rank() - y.Rank()
    {
      NextAbove(y);
      NextAbove(m);
      if y.Rank() == m.Rank() {
        RankInjective(y, m);
      } else {
        ChainBelow(y, m);
        BelowIrreflexive(m.ToWire());
        SearchFinds(y.Next().value, m);
      }
    }

    /** Values grow strictly with rank. */
    static lemma {:induction false} ChainBelow(y: ConfigurationKey, m: ConfigurationKey)
      requires y.Rank() < m.Rank()
      ensures Below(y.ToWire(), m.ToWire())
      decreases m.Rank() - y.Rank()
    {
      NextAbove(y);
      NextAbove(m);
      var n := y.Next().value;
      if n.Rank() == m.Rank() {
        RankInjective(n, m);
      } else {
        ChainBelow(n, m);
        BelowTransitive(y.ToWire(), n.ToWire(), m.ToWire());
      }
    }

    static lemma RankInjective(a: ConfigurationKey, b: ConfigurationKey)
      requires a.Rank() == b.Rank()
      ensures a == b
    {
      NextAbove(a);
      NextAbove(b);
    }

    /** Each member but the last is followed by the member of the next rank, whose value is above its own. */
    static lemma NextAbove(m: ConfigurationKey)
      ensures m.Rank() < Size && AtRank(m.Rank()) == Some(m)
      ensures m.Next().Some? <==> m.Rank() + 1 < Size
      ensures m.Next().Some? ==> m.Next().value.Rank() == m.Rank() + 1 && Below(m.ToWire(), m.Next().value.ToWire())
    {
      match m
      case AllowOfflineTxForUnknownId => NextAboveAllowOfflineTxForUnknownId(m);
      case AuthorizationCacheEnabled => NextAboveAuthorizationCacheEnabled(m);
      case AuthorizeRemoteTxRequests => NextAboveAuthorizeRemoteTxRequests(m);
      case BlinkRepeat => NextAboveBlinkRepeat(m);
      case ClockAlignedDataInterval => NextAboveClockAlignedDataInterval(m);
      case ConnectionTimeOut => NextAboveConnectionTimeOut(m);
      case ConnectorPhaseRotation => NextAboveConnectorPhaseRotation(m);
      case ConnectorPhaseRotationMaxLength => NextAboveConnectorPhaseRotationMaxLength(m);
      case GetConfigurationMaxKeys => NextAboveGetConfigurationMaxKeys(m);
      case HeartbeatInterval => NextAboveHeartbeatInterval(m);
      case LightIntensity => NextAboveLightIntensity(m);
      case LocalAuthorizeOffline => NextAboveLocalAuthorizeOffline(m);
      case LocalPreAuthorize => NextAboveLocalPreAuthorize(m);
      case MaxEnergyOnInvalidId => NextAboveMaxEnergyOnInvalidId(m);
      case MeterValuesAlignedData => NextAboveMeterValuesAlignedData(m);
      case MeterValuesAlignedDataMaxLength => NextAboveMeterValuesAlignedDataMaxLength(m);
      case MeterValuesSampledData => NextAboveMeterValuesSampledData(m);
      case MeterValuesSampledDataMaxLength => NextAboveMeterValuesSampledDataMaxLength(m);
      case MeterValueSampleInterval => NextAboveMeterValueSampleInterval(m);
      case MinimumStatusDuration => NextAboveMinimumStatusDuration(m);
      case NumberOfConnectors => NextAboveNumberOfConnectors(m);
      case ResetRetries => NextAboveResetRetries(m);
      case StopTransactionOnEvSideDisconnect => NextAboveStopTransactionOnEvSideDisconnect(m);
      case StopTransactionOnInvalidId => NextAboveStopTransactionOnInvalidId(m);
      case StopTxnAlignedData => NextAboveStopTxnAlignedData(m);
      case StopTxnAlignedDataMaxLength => NextAboveStopTxnAlignedDataMaxLength(m);
      case StopTxnSampledData => NextAboveStopTxnSampledData(m);
      case StopTxnSampledDataMaxLength => NextAboveStopTxnSampledDataMaxLength(m);
      case SupportedFeatureProfiles => NextAboveSupportedFeatureProfiles(m);
      case SupportedFeatureProfilesMaxLength => NextAboveSupportedFeatureProfilesMaxLength(m);
      case TransactionMessageAttempts => NextAboveTransactionMessageAttempts(m);
      case TransactionMessageRetryInterval => NextAboveTransactionMessageRetryInterval(m);
      case UnlockConnectorOnEvSideDisconnect => NextAboveUnlockConnectorOnEvSideDisconnect(m);
      case WebSocketPingInterval => NextAboveWebSocketPingInterval(m);
      case LocalAuthListEnabled => NextAboveLocalAuthListEnabled(m);
      case LocalAuthListMaxLength => NextAboveLocalAuthListMaxLength(m);
      case SendLocalListMaxLength => NextAboveSendLocalListMaxLength(m);
      case ReserveConnectorZeroSupported => NextAboveReserveConnectorZeroSupported(m);
      case ChargeProfileMaxStackLevel => NextAboveChargeProfileMaxStackLevel(m);
      case ChargingScheduleAllowedChargingRateUnit => RankOfChargingScheduleAllowedChargingRateUnit(m);
      case ChargingScheduleMaxPeriods => NextAboveChargingScheduleMaxPeriods(m);
      case ConnectorSwitch3to1PhaseSupported => NextAboveConnectorSwitch3to1PhaseSupported(m);
      case MaxChargingProfilesInstalled => NextAboveMaxChargingProfilesInstalled(m);
      case CentralContractValidationAllowed => NextAboveCentralContractValidationAllowed(m);
      case CertificateSignedMaxChainSize => NextAboveCertificateSignedMaxChainSize(m);
      case CertSigningWaitMinimum => NextAboveCertSigningWaitMinimum(m);
      case CertSigningRepeatTimes => NextAboveCertSigningRepeatTimes(m);
      case CertificateStoreMaxLength => NextAboveCertificateStoreMaxLength(m);
      case ContractValidationOffline => NextAboveContractValidationOffline(m);
      case Iso15118PncEnabled => NextAboveIso15118PncEnabled(m);
      case AdditionalRootCertificateCheck => NextAboveAdditionalRootCertificateCheck(m);
      case AuthorizationKey => NextAboveAuthorizationKey(m);
      case CpoName => NextAboveCpoName(m);
      case SecurityProfile => NextAboveSecurityProfile(m);
    }

    // One small lemma per member for each fact `NextAbove` gathers: its value,
    // its rank and successor, and the order between its value and the next.

    static lemma WireOfAllowOfflineTxForUnknownId(m: ConfigurationKey) requires m.AllowOfflineTxForUnknownId? ensures m.ToWire() == "AllowOfflineTxForUnknownId" { }
    static lemma RankOfAllowOfflineTxForUnknownId(m: ConfigurationKey) requires m.AllowOfflineTxForUnknownId? ensures m.Rank() == 33 && m.Next() == Some(ConfigurationKey.ChargeProfileMaxStackLevel) && AtRank(33) == Some(ConfigurationKey.AllowOfflineTxForUnknownId) { }
    static lemma PrecedesAllowOfflineTxForUnknownId() ensures Below("AllowOfflineTxForUnknownId", "ChargeProfileMaxStackLevel") { assert "AllowOfflineTxForUnknownId"[..0] == "ChargeProfileMaxStackLevel"[..0]; }
    static lemma NextAboveAllowOfflineTxForUnknownId(m: ConfigurationKey)
      requires m.AllowOfflineTxForUnknownId?
      ensures m.Rank() + 1 < Size && AtRank(m.Rank()) == Some(m)
      ensures m.Next().Some? && m.Next().value.Rank() == m.Rank() + 1
      ensures Below(m.ToWire(), m.Next().value.ToWire())
    {
      RankOfAllowOfflineTxForUnknownId(m);
      RankOfChargeProfileMaxStackLevel(m.Next().value);
      WireOfAllowOfflineTxForUnknownId(m);
      WireOfChargeProfileMaxStackLevel(m.Next().value);
      PrecedesAllowOfflineTxForUnknownId();
    }

    static lemma WireOfAuthorizationCacheEnabled(m: ConfigurationKey) requires m.AuthorizationCacheEnabled? ensures m.ToWire() == "AuthorizationCacheEnabled" { }
    static lemma RankOfAuthorizationCacheEnabled(m: ConfigurationKey) requires m.AuthorizationCacheEnabled? ensures m.Rank() == 29 && m.Next() == Some(ConfigurationKey.AuthorizeRemoteTxRequests) && AtRank(29) == Some(ConfigurationKey.AuthorizationCacheEnabled) { }
    static lemma PrecedesAuthorizationCacheEnabled() ensures Below("AuthorizationCacheEnabled", "AuthorizeRemoteTxRequests") { assert "AuthorizationCacheEnabled"[..8] == "AuthorizeRemoteTxRequests"[..8]; }
    static lemma NextAboveAuthorizationCacheEnabled(m: ConfigurationKey)
      requires m.AuthorizationCacheEnabled?
      ensures m.Rank() + 1 < Size && AtRank(m.Rank()) == Some(m)
      ensures m.Next().Some? && m.Next().value.Rank() == m.Rank() + 1
      ensures Below(m.ToWire(), m.Next().value.ToWire())
    {
      RankOfAuthorizationCacheEnabled(m);
      RankOfAuthorizeRemoteTxRequests(m.Next().value);
      WireOfAuthorizationCacheEnabled(m);
      WireOfAuthorizeRemoteTxRequests(m.Next().value);
      PrecedesAuthorizationCacheEnabled();
    }

    static lemma WireOfAuthorizeRemoteTxRequests(m: ConfigurationKey) requires m.AuthorizeRemoteTxRequests? ensures m.ToWire() == "AuthorizeRemoteTxRequests" { }
    static lemma RankOfAuthorizeRemoteTxRequests(m: ConfigurationKey) requires m.AuthorizeRemoteTxRequests? ensures m.Rank() == 30 && m.Next() == Some(ConfigurationKey.CertificateStoreMaxLength) && AtRank(30) == Some(ConfigurationKey.AuthorizeRemoteTxRequests) { }
    static lemma PrecedesAuthorizeRemoteTxRequests() ensures Below("AuthorizeRemoteTxRequests", "CertificateStoreMaxLength") { assert "AuthorizeRemoteTxRequests"[..0] == "CertificateStoreMaxLength"[..0]; }
    static lemma NextAboveAuthorizeRemoteTxRequests(m: ConfigurationKey)
      requires m.AuthorizeRemoteTxRequests?
      ensures m.Rank() + 1 < Size && AtRank(m.Rank()) == Some(m)
      ensures m.Next().Some? && m.Next().value.Rank() == m.Rank() + 1
      ensures Below(m.ToWire(), m.Next().value.ToWire())
    {
      RankOfAuthorizeRemoteTxRequests(m);
      RankOfCertificateStoreMaxLength(m.Next().value);
      WireOfAuthorizeRemoteTxRequests(m);
      WireOfCertificateStoreMaxLength(m.Next().value);
      PrecedesAuthorizeRemoteTxRequests();
    }

    static lemma WireOfBlinkRepeat(m: ConfigurationKey) requires m.BlinkRepeat? ensures m.ToWire() == "BlinkRepeat" { }
    static lemma RankOfBlinkRepeat(m: ConfigurationKey) requires m.BlinkRepeat? ensures m.Rank() == 1 && m.Next() == Some(ConfigurationKey.ResetRetries) && AtRank(1) == Some(ConfigurationKey.BlinkRepeat) { }
    static lemma PrecedesBlinkRepeat() ensures Below("BlinkRepeat", "ResetRetries") { }
    static lemma NextAboveBlinkRepeat(m: ConfigurationKey)
      requires m.BlinkRepeat?
      ensures m.Rank() + 1 < Size && AtRank(m.Rank()) == Some(m)
      ensures m.Next().Some? && m.Next().value.Rank() == m.Rank() + 1
      ensures Below(m.ToWire(), m.Next().value.ToWire())
    {
      RankOfBlinkRepeat(m);
      RankOfResetRetries(m.Next().value);
      WireOfBlinkRepeat(m);
      WireOfResetRetries(m.Next().value);
      PrecedesBlinkRepeat();
    }

    static lemma WireOfClockAlignedDataInterval(m: ConfigurationKey) requires m.ClockAlignedDataInterval? ensures m.ToWire() == "ClockAlignedDataInterval" { }
    static lemma RankOfClockAlignedDataInterval(m: ConfigurationKey) requires m.ClockAlignedDataInterval? ensures m.Rank() == 26 && m.Next() == Some(ConfigurationKey.MeterValueSampleInterval) && AtRank(26) == Some(ConfigurationKey.ClockAlignedDataInterval) { }
    static lemma PrecedesClockAlignedDataInterval() ensures Below("ClockAlignedDataInterval", "MeterValueSampleInterval") { assert "ClockAlignedDataInterval"[..0] == "MeterValueSampleInterval"[..0]; }
    static lemma NextAboveClockAlignedDataInterval(m: ConfigurationKey)
      requires m.ClockAlignedDataInterval?
      ensures m.Rank() + 1 < Size && AtRank(m.Rank()) == Some(m)
      ensures m.Next().Some? && m.Next().value.Rank() == m.Rank() + 1
      ensures Below(m.ToWire(), m.Next().value.ToWire())
    {
      RankOfClockAlignedDataInterval(m);
      RankOfMeterValueSampleInterval(m.Next().value);
      WireOfClockAlignedDataInterval(m);
      WireOfMeterValueSampleInterval(m.Next().value);
      PrecedesClockAlignedDataInterval();
    }

    static lemma WireOfConnectionTimeOut(m: ConfigurationKey) requires m.ConnectionTimeOut? ensures m.ToWire() == "ConnectionTimeOut" { }
    static lemma RankOfConnectionTimeOut(m: ConfigurationKey) requires m.ConnectionTimeOut? ensures m.Rank() == 6 && m.Next() == Some(ConfigurationKey.HeartbeatInterval) && AtRank(6) == Some(ConfigurationKey.ConnectionTimeOut) { }
    static lemma PrecedesConnectionTimeOut() ensures Below("ConnectionTimeOut", "HeartbeatInterval") { assert "ConnectionTimeOut"[..0] == "HeartbeatInterval"[..0]; }
    static lemma NextAboveConnectionTimeOut(m: ConfigurationKey)
      requires m.ConnectionTimeOut?
      ensures m.Rank() + 1 < Size && AtRank(m.Rank()) == Some(m)
      ensures m.Next().Some? && m.Next().value.Rank() == m.Rank() + 1
      ensures Below(m.ToWire(), m.Next().value.ToWire())
    {
      RankOfConnectionTimeOut(m);
      RankOfHeartbeatInterval(m.Next().value);
      WireOfConnectionTimeOut(m);
      WireOfHeartbeatInterval(m.Next().value);
      PrecedesConnectionTimeOut();
    }

    static lemma WireOfConnectorPhaseRotation(m: ConfigurationKey) requires m.ConnectorPhaseRotation? ensures m.ToWire() == "ConnectorPhaseRotation" { }
    static lemma RankOfConnectorPhaseRotation(m: ConfigurationKey) requires m.ConnectorPhaseRotation? ensures m.Rank() == 20 && m.Next() == Some(ConfigurationKey.LocalAuthListMaxLength) && AtRank(20) == Some(ConfigurationKey.ConnectorPhaseRotation) { }
    static lemma PrecedesConnectorPhaseRotation() ensures Below("ConnectorPhaseRotation", "LocalAuthListMaxLength") { assert "ConnectorPhaseRotation"[..0] == "LocalAuthListMaxLength"[..0]; }
    static lemma NextAboveConnectorPhaseRotation(m: ConfigurationKey)
      requires m.ConnectorPhaseRotation?
      ensures m.Rank() + 1 < Size && AtRank(m.Rank()) == Some(m)
      ensures m.Next().Some? && m.Next().value.Rank() == m.Rank() + 1
      ensures Below(m.ToWire(), m.Next().value.ToWire())
    {
      RankOfConnectorPhaseRotation(m);
      RankOfLocalAuthListMaxLength(m.Next().value);
      WireOfConnectorPhaseRotation(m);
      WireOfLocalAuthListMaxLength(m.Next().value);
      PrecedesConnectorPhaseRotation();
    }

    static lemma WireOfConnectorPhaseRotationMaxLength(m: ConfigurationKey) requires m.ConnectorPhaseRotationMaxLength? ensures m.ToWire() == "ConnectorPhaseRotationMaxLength" { }
    static lemma RankOfConnectorPhaseRotationMaxLength(m: ConfigurationKey) requires m.ConnectorPhaseRotationMaxLength? ensures m.Rank() == 44 && m.Next() == Some(ConfigurationKey.MeterValuesAlignedDataMaxLength) && AtRank(44) == Some(ConfigurationKey.ConnectorPhaseRotationMaxLength) { }
    static lemma PrecedesConnectorPhaseRotationMaxLength() ensures Below("ConnectorPhaseRotationMaxLength", "MeterValuesAlignedDataMaxLength") { assert "ConnectorPhaseRotationMaxLength"[..0] == "MeterValuesAlignedDataMaxLength"[..0]; }
    static lemma NextAboveConnectorPhaseRotationMaxLength(m: ConfigurationKey)
      requires m.ConnectorPhaseRotationMaxLength?
      ensures m.Rank() + 1 < Size && AtRank(m.Rank()) == Some(m)
      ensures m.Next().Some? && m.Next().value.Rank() == m.Rank() + 1
      ensures Below(m.ToWire(), m.Next().value.ToWire())
    {
      RankOfConnectorPhaseRotationMaxLength(m);
      RankOfMeterValuesAlignedDataMaxLength(m.Next().value);
      WireOfConnectorPhaseRotationMaxLength(m);
      WireOfMeterValuesAlignedDataMaxLength(m.Next().value);
      PrecedesConnectorPhaseRotationMaxLength();
    }

    static lemma WireOfGetConfigurationMaxKeys(m: ConfigurationKey) requires m.GetConfigurationMaxKeys? ensures m.ToWire() == "GetConfigurationMaxKeys" { }
    static lemma RankOfGetConfigurationMaxKeys(m: ConfigurationKey) requires m.GetConfigurationMaxKeys? ensures m.Rank() == 25 && m.Next() == Some(ConfigurationKey.ClockAlignedDataInterval) && AtRank(25) == Some(ConfigurationKey.GetConfigurationMaxKeys) { }
    static lemma PrecedesGetConfigurationMaxKeys() ensures Below("GetConfigurationMaxKeys", "ClockAlignedDataInterval") { }
    static lemma NextAboveGetConfigurationMaxKeys(m: ConfigurationKey)
      requires m.GetConfigurationMaxKeys?
      ensures m.Rank() + 1 < Size && AtRank(m.Rank()) == Some(m)
      ensures m.Next().Some? && m.Next().value.Rank() == m.Rank() + 1
      ensures Below(m.ToWire(), m.Next().value.ToWire())
    {
      RankOfGetConfigurationMaxKeys(m);
      RankOfClockAlignedDataInterval(m.Next().value);
      WireOfGetConfigurationMaxKeys(m);
      WireOfClockAlignedDataInterval(m.Next().value);
      PrecedesGetConfigurationMaxKeys();
    }

    static lemma WireOfHeartbeatInterval(m: ConfigurationKey) requires m.HeartbeatInterval? ensures m.ToWire() == "HeartbeatInterval" { }
    static lemma RankOfHeartbeatInterval(m: ConfigurationKey) requires m.HeartbeatInterval? ensures m.Rank() == 7 && m.Next() == Some(ConfigurationKey.LocalPreAuthorize) && AtRank(7) == Some(ConfigurationKey.HeartbeatInterval) { }
    static lemma PrecedesHeartbeatInterval() ensures Below("HeartbeatInterval", "LocalPreAuthorize") { assert "HeartbeatInterval"[..0] == "LocalPreAuthorize"[..0]; }
    static lemma NextAboveHeartbeatInterval(m: ConfigurationKey)
      requires m.HeartbeatInterval?
      ensures m.Rank() + 1 < Size && AtRank(m.Rank()) == Some(m)
      ensures m.Next().Some? && m.Next().value.Rank() == m.Rank() + 1
      ensures Below(m.ToWire(), m.Next().value.ToWire())
    {
      RankOfHeartbeatInterval(m);
      RankOfLocalPreAuthorize(m.Next().value);
      WireOfHeartbeatInterval(m);
      WireOfLocalPreAuthorize(m.Next().value);
      PrecedesHeartbeatInterval();
    }

    static lemma WireOfLightIntensity(m: ConfigurationKey) requires m.LightIntensity? ensures m.ToWire() == "LightIntensity" { }
    static lemma RankOfLightIntensity(m: ConfigurationKey) requires m.LightIntensity? ensures m.Rank() == 3 && m.Next() == Some(ConfigurationKey.SecurityProfile) && AtRank(3) == Some(ConfigurationKey.LightIntensity) { }
    static lemma PrecedesLightIntensity() ensures Below("LightIntensity", "SecurityProfile") { }
    static lemma NextAboveLightIntensity(m: ConfigurationKey)
      requires m.LightIntensity?
      ensures m.Rank() + 1 < Size && AtRank(m.Rank()) == Some(m)
      ensures m.Next().Some? && m.Next().value.Rank() == m.Rank() + 1
      ensures Below(m.ToWire(), m.Next().value.ToWire())
    {
      RankOfLightIntensity(m);
      RankOfSecurityProfile(m.Next().value);
      WireOfLightIntensity(m);
      WireOfSecurityProfile(m.Next().value);
      PrecedesLightIntensity();
    }

    static lemma WireOfLocalAuthorizeOffline(m: ConfigurationKey) requires m.LocalAuthorizeOffline? ensures m.ToWire() == "LocalAuthorizeOffline" { }
    static lemma RankOfLocalAuthorizeOffline(m: ConfigurationKey) requires m.LocalAuthorizeOffline? ensures m.Rank() == 15 && m.Next() == Some(ConfigurationKey.MinimumStatusDuration) && AtRank(15) == Some(ConfigurationKey.LocalAuthorizeOffline) { }
    static lemma PrecedesLocalAuthorizeOffline() ensures Below("LocalAuthorizeOffline", "MinimumStatusDuration") { assert "LocalAuthorizeOffline"[..0] == "MinimumStatusDuration"[..0]; }
    static lemma NextAboveLocalAuthorizeOffline(m: ConfigurationKey)
      requires m.LocalAuthorizeOffline?
      ensures m.Rank() + 1 < Size && AtRank(m.Rank()) == Some(m)
      ensures m.Next().Some? && m.Next().value.Rank() == m.Rank() + 1
      ensures Below(m.ToWire(), m.Next().value.ToWire())
    {
      RankOfLocalAuthorizeOffline(m);
      RankOfMinimumStatusDuration(m.Next().value);
      WireOfLocalAuthorizeOffline(m);
      WireOfMinimumStatusDuration(m.Next().value);
      PrecedesLocalAuthorizeOffline();
    }

    static lemma WireOfLocalPreAuthorize(m: ConfigurationKey) requires m.LocalPreAuthorize? ensures m.ToWire() == "LocalPreAuthorize" { }
    static lemma RankOfLocalPreAuthorize(m: ConfigurationKey) requires m.LocalPreAuthorize? ensures m.Rank() == 8 && m.Next() == Some(ConfigurationKey.Iso15118PncEnabled) && AtRank(8) == Some(ConfigurationKey.LocalPreAuthorize) { }
    static lemma PrecedesLocalPreAuthorize() ensures Below("LocalPreAuthorize", "ISO15118PnCEnabled") { }
    static lemma NextAboveLocalPreAuthorize(m: ConfigurationKey)
      requires m.LocalPreAuthorize?
      ensures m.Rank() + 1 < Size && AtRank(m.Rank()) == Some(m)
      ensures m.Next().Some? && m.Next().value.Rank() == m.Rank() + 1
      ensures Below(m.ToWire(), m.Next().value.ToWire())
    {
      RankOfLocalPreAuthorize(m);
      RankOfIso15118PncEnabled(m.Next().value);
      WireOfLocalPreAuthorize(m);
      WireOfIso15118PncEnabled(m.Next().value);
      PrecedesLocalPreAuthorize();
    }

    static lemma WireOfMaxEnergyOnInvalidId(m: ConfigurationKey) requires m.MaxEnergyOnInvalidId? ensures m.ToWire() == "MaxEnergyOnInvalidId" { }
    static lemma RankOfMaxEnergyOnInvalidId(m: ConfigurationKey) requires m.MaxEnergyOnInvalidId? ensures m.Rank() == 14 && m.Next() == Some(ConfigurationKey.LocalAuthorizeOffline) && AtRank(14) == Some(ConfigurationKey.MaxEnergyOnInvalidId) { }
    static lemma PrecedesMaxEnergyOnInvalidId() ensures Below("MaxEnergyOnInvalidId", "LocalAuthorizeOffline") { }
    static lemma NextAboveMaxEnergyOnInvalidId(m: ConfigurationKey)
      requires m.MaxEnergyOnInvalidId?
      ensures m.Rank() + 1 < Size && AtRank(m.Rank()) == Some(m)
      ensures m.Next().Some? && m.Next().value.Rank() == m.Rank() + 1
      ensures Below(m.ToWire(), m.Next().value.ToWire())
    {
      RankOfMaxEnergyOnInvalidId(m);
      RankOfLocalAuthorizeOffline(m.Next().value);
      WireOfMaxEnergyOnInvalidId(m);
      WireOfLocalAuthorizeOffline(m.Next().value);
      PrecedesMaxEnergyOnInvalidId();
    }

    static lemma WireOfMeterValuesAlignedData(m: ConfigurationKey) requires m.MeterValuesAlignedData? ensures m.ToWire() == "MeterValuesAlignedData" { }
    static lemma RankOfMeterValuesAlignedData(m: ConfigurationKey) requires m.MeterValuesAlignedData? ensures m.Rank() == 22 && m.Next() == Some(ConfigurationKey.MeterValuesSampledData) && AtRank(22) == Some(ConfigurationKey.MeterValuesAlignedData) { }
    static lemma PrecedesMeterValuesAlignedData() ensures Below("MeterValuesAlignedData", "MeterValuesSampledData") { assert "MeterValuesAlignedData"[..11] == "MeterValuesSampledData"[..11]; }
    static lemma NextAboveMeterValuesAlignedData(m: ConfigurationKey)
      requires m.MeterValuesAlignedData?
      ensures m.Rank() + 1 < Size && AtRank(m.Rank()) == Some(m)
      ensures m.Next().Some? && m.Next().value.Rank() == m.Rank() + 1
      ensures Below(m.ToWire(), m.Next().value.ToWire())
    {
      RankOfMeterValuesAlignedData(m);
      RankOfMeterValuesSampledData(m.Next().value);
      WireOfMeterValuesAlignedData(m);
      WireOfMeterValuesSampledData(m.Next().value);
      PrecedesMeterValuesAlignedData();
    }

    static lemma WireOfMeterValuesAlignedDataMaxLength(m: ConfigurationKey) requires m.MeterValuesAlignedDataMaxLength? ensures m.ToWire() == "MeterValuesAlignedDataMaxLength" { }
    static lemma RankOfMeterValuesAlignedDataMaxLength(m: ConfigurationKey) requires m.MeterValuesAlignedDataMaxLength? ensures m.Rank() == 45 && m.Next() == Some(ConfigurationKey.MeterValuesSampledDataMaxLength) && AtRank(45) == Some(ConfigurationKey.MeterValuesAlignedDataMaxLength) { }
    static lemma PrecedesMeterValuesAlignedDataMaxLength() ensures Below("MeterValuesAlignedDataMaxLength", "MeterValuesSampledDataMaxLength") { assert "MeterValuesAlignedDataMaxLength"[..11] == "MeterValuesSampledDataMaxLength"[..11]; }
    static lemma NextAboveMeterValuesAlignedDataMaxLength(m: ConfigurationKey)
      requires m.MeterValuesAlignedDataMaxLength?
      ensures m.Rank() + 1 < Size && AtRank(m.Rank()) == Some(m)
      ensures m.Next().Some? && m.Next().value.Rank() == m.Rank() + 1
      ensures Below(m.ToWire(), m.Next().value.ToWire())
    {
      RankOfMeterValuesAlignedDataMaxLength(m);
      RankOfMeterValuesSampledDataMaxLength(m.Next().value);
      WireOfMeterValuesAlignedDataMaxLength(m);
      WireOfMeterValuesSampledDataMaxLength(m.Next().value);
      PrecedesMeterValuesAlignedDataMaxLength();
    }

    static lemma WireOfMeterValuesSampledData(m: ConfigurationKey) requires m.MeterValuesSampledData? ensures m.ToWire() == "MeterValuesSampledData" { }
    static lemma RankOfMeterValuesSampledData(m: ConfigurationKey) requires m.MeterValuesSampledData? ensures m.Rank() == 23 && m.Next() == Some(ConfigurationKey.SendLocalListMaxLength) && AtRank(23) == Some(ConfigurationKey.MeterValuesSampledData) { }
    static lemma PrecedesMeterValuesSampledData() ensures Below("MeterValuesSampledData", "SendLocalListMaxLength") { assert "MeterValuesSampledData"[..0] == "SendLocalListMaxLength"[..0]; }
    static lemma NextAboveMeterValuesSampledData(m: ConfigurationKey)
      requires m.MeterValuesSampledData?
      ensures m.Rank() + 1 < Size && AtRank(m.Rank()) == Some(m)
      ensures m.Next().Some? && m.Next().value.Rank() == m.Rank() + 1
      ensures Below(m.ToWire(), m.Next().value.ToWire())
    {
      RankOfMeterValuesSampledData(m);
      RankOfSendLocalListMaxLength(m.Next().value);
      WireOfMeterValuesSampledData(m);
      WireOfSendLocalListMaxLength(m.Next().value);
      PrecedesMeterValuesSampledData();
    }

    static lemma WireOfMeterValuesSampledDataMaxLength(m: ConfigurationKey) requires m.MeterValuesSampledDataMaxLength? ensures m.ToWire() == "MeterValuesSampledDataMaxLength" { }
    static lemma RankOfMeterValuesSampledDataMaxLength(m: ConfigurationKey) requires m.MeterValuesSampledDataMaxLength? ensures m.Rank() == 46 && m.Next() == Some(ConfigurationKey.TransactionMessageRetryInterval) && AtRank(46) == Some(ConfigurationKey.MeterValuesSampledDataMaxLength) { }
    static lemma PrecedesMeterValuesSampledDataMaxLength() ensures Below("MeterValuesSampledDataMaxLength", "TransactionMessageRetryInterval") { assert "MeterValuesSampledDataMaxLength"[..0] == "TransactionMessageRetryInterval"[..0]; }
    static lemma NextAboveMeterValuesSampledDataMaxLength(m: ConfigurationKey)
      requires m.MeterValuesSampledDataMaxLength?
      ensures m.Rank() + 1 < Size && AtRank(m.Rank()) == Some(m)
      ensures m.Next().Some? && m.Next().value.Rank() == m.Rank() + 1
      ensures Below(m.ToWire(), m.Next().value.ToWire())
    {
      RankOfMeterValuesSampledDataMaxLength(m);
      RankOfTransactionMessageRetryInterval(m.Next().value);
      WireOfMeterValuesSampledDataMaxLength(m);
      WireOfTransactionMessageRetryInterval(m.Next().value);
      PrecedesMeterValuesSampledDataMaxLength();
    }

    static lemma WireOfMeterValueSampleInterval(m: ConfigurationKey) requires m.MeterValueSampleInterval? ensures m.ToWire() == "MeterValueSampleInterval" { }
    static lemma RankOfMeterValueSampleInterval(m: ConfigurationKey) requires m.MeterValueSampleInterval? ensures m.Rank() == 27 && m.Next() == Some(ConfigurationKey.SupportedFeatureProfiles) && AtRank(27) == Some(ConfigurationKey.MeterValueSampleInterval) { }
    static lemma PrecedesMeterValueSampleInterval() ensures Below("MeterValueSampleInterval", "SupportedFeatureProfiles") { assert "MeterValueSampleInterval"[..0] == "SupportedFeatureProfiles"[..0]; }
    static lemma NextAboveMeterValueSampleInterval(m: ConfigurationKey)
      requires m.MeterValueSampleInterval?
      ensures m.Rank() + 1 < Size && AtRank(m.Rank()) == Some(m)
      ensures m.Next().Some? && m.Next().value.Rank() == m.Rank() + 1
      ensures Below(m.ToWire(), m.Next().value.ToWire())
    {
      RankOfMeterValueSampleInterval(m);
      RankOfSupportedFeatureProfiles(m.Next().value);
      WireOfMeterValueSampleInterval(m);
      WireOfSupportedFeatureProfiles(m.Next().value);
      PrecedesMeterValueSampleInterval();
    }

    static lemma WireOfMinimumStatusDuration(m: ConfigurationKey) requires m.MinimumStatusDuration? ensures m.ToWire() == "MinimumStatusDuration" { }
    static lemma RankOfMinimumStatusDuration(m: ConfigurationKey) requires m.MinimumStatusDuration? ensures m.Rank() == 16 && m.Next() == Some(ConfigurationKey.WebSocketPingInterval) && AtRank(16) == Some(ConfigurationKey.MinimumStatusDuration) { }
    static lemma PrecedesMinimumStatusDuration() ensures Below("MinimumStatusDuration", "WebSocketPingInterval") { assert "MinimumStatusDuration"[..0] == "WebSocketPingInterval"[..0]; }
    static lemma NextAboveMinimumStatusDuration(m: ConfigurationKey)
      requires m.MinimumStatusDuration?
      ensures m.Rank() + 1 < Size && AtRank(m.Rank()) == Some(m)
      ensures m.Next().Some? && m.Next().value.Rank() == m.Rank() + 1
      ensures Below(m.ToWire(), m.Next().value.ToWire())
    {
      RankOfMinimumStatusDuration(m);
      RankOfWebSocketPingInterval(m.Next().value);
      WireOfMinimumStatusDuration(m);
      WireOfWebSocketPingInterval(m.Next().value);
      PrecedesMinimumStatusDuration();
    }

    static lemma WireOfNumberOfConnectors(m: ConfigurationKey) requires m.NumberOfConnectors? ensures m.ToWire() == "NumberOfConnectors" { }
    static lemma RankOfNumberOfConnectors(m: ConfigurationKey) requires m.NumberOfConnectors? ensures m.Rank() == 10 && m.Next() == Some(ConfigurationKey.StopTxnAlignedData) && AtRank(10) == Some(ConfigurationKey.NumberOfConnectors) { }
    static lemma PrecedesNumberOfConnectors() ensures Below("NumberOfConnectors", "StopTxnAlignedData") { assert "NumberOfConnectors"[..0] == "StopTxnAlignedData"[..0]; }
    static lemma NextAboveNumberOfConnectors(m: ConfigurationKey)
      requires m.NumberOfConnectors?
      ensures m.Rank() + 1 < Size && AtRank(m.Rank()) == Some(m)
      ensures m.Next().Some? && m.Next().value.Rank() == m.Rank() + 1
      ensures Below(m.ToWire(), m.Next().value.ToWire())
    {
      RankOfNumberOfConnectors(m);
      RankOfStopTxnAlignedData(m.Next().value);
      WireOfNumberOfConnectors(m);
      WireOfStopTxnAlignedData(m.Next().value);
      PrecedesNumberOfConnectors();
    }

    static lemma WireOfResetRetries(m: ConfigurationKey) requires m.ResetRetries? ensures m.ToWire() == "ResetRetries" { }
    static lemma RankOfResetRetries(m: ConfigurationKey) requires m.ResetRetries? ensures m.Rank() == 2 && m.Next() == Some(ConfigurationKey.LightIntensity) && AtRank(2) == Some(ConfigurationKey.ResetRetries) { }
    static lemma PrecedesResetRetries() ensures Below("ResetRetries", "LightIntensity") { }
    static lemma NextAboveResetRetries(m: ConfigurationKey)
      requires m.ResetRetries?
      ensures m.Rank() + 1 < Size && AtRank(m.Rank()) == Some(m)
      ensures m.Next().Some? && m.Next().value.Rank() == m.Rank() + 1
      ensures Below(m.ToWire(), m.Next().value.ToWire())
    {
      RankOfResetRetries(m);
      RankOfLightIntensity(m.Next().value);
      WireOfResetRetries(m);
      WireOfLightIntensity(m.Next().value);
      PrecedesResetRetries();
    }

    static lemma WireOfStopTransactionOnEvSideDisconnect(m: ConfigurationKey) requires m.StopTransactionOnEvSideDisconnect? ensures m.ToWire() == "StopTransactionOnEVSideDisconnect" { }
    static lemma RankOfStopTransactionOnEvSideDisconnect(m: ConfigurationKey) requires m.StopTransactionOnEvSideDisconnect? ensures m.Rank() == 50 && m.Next() == Some(ConfigurationKey.SupportedFeatureProfilesMaxLength) && AtRank(50) == Some(ConfigurationKey.StopTransactionOnEvSideDisconnect) { }
    static lemma PrecedesStopTransactionOnEvSideDisconnect() ensures Below("StopTransactionOnEVSideDisconnect", "SupportedFeatureProfilesMaxLength") { assert "StopTransactionOnEVSideDisconnect"[..1] == "SupportedFeatureProfilesMaxLength"[..1]; }
    static lemma NextAboveStopTransactionOnEvSideDisconnect(m: ConfigurationKey)
      requires m.StopTransactionOnEvSideDisconnect?
      ensures m.Rank() + 1 < Size && AtRank(m.Rank()) == Some(m)
      ensures m.Next().Some? && m.Next().value.Rank() == m.Rank() + 1
      ensures Below(m.ToWire(), m.Next().value.ToWire())
    {
      RankOfStopTransactionOnEvSideDisconnect(m);
      RankOfSupportedFeatureProfilesMaxLength(m.Next().value);
      WireOfStopTransactionOnEvSideDisconnect(m);
      WireOfSupportedFeatureProfilesMaxLength(m.Next().value);
      PrecedesStopTransactionOnEvSideDisconnect();
    }

    static lemma WireOfStopTransactionOnInvalidId(m: ConfigurationKey) requires m.StopTransactionOnInvalidId? ensures m.ToWire() == "StopTransactionOnInvalidId" { }
    static lemma RankOfStopTransactionOnInvalidId(m: ConfigurationKey) requires m.StopTransactionOnInvalidId? ensures m.Rank() == 36 && m.Next() == Some(ConfigurationKey.TransactionMessageAttempts) && AtRank(36) == Some(ConfigurationKey.StopTransactionOnInvalidId) { }
    static lemma PrecedesStopTransactionOnInvalidId() ensures Below("StopTransactionOnInvalidId", "TransactionMessageAttempts") { assert "StopTransactionOnInvalidId"[..0] == "TransactionMessageAttempts"[..0]; }
    static lemma NextAboveStopTransactionOnInvalidId(m: ConfigurationKey)
      requires m.StopTransactionOnInvalidId?
      ensures m.Rank() + 1 < Size && AtRank(m.Rank()) == Some(m)
      ensures m.Next().Some? && m.Next().value.Rank() == m.Rank() + 1
      ensures Below(m.ToWire(), m.Next().value.ToWire())
    {
      RankOfStopTransactionOnInvalidId(m);
      RankOfTransactionMessageAttempts(m.Next().value);
      WireOfStopTransactionOnInvalidId(m);
      WireOfTransactionMessageAttempts(m.Next().value);
      PrecedesStopTransactionOnInvalidId();
    }

    static lemma WireOfStopTxnAlignedData(m: ConfigurationKey) requires m.StopTxnAlignedData? ensures m.ToWire() == "StopTxnAlignedData" { }
    static lemma RankOfStopTxnAlignedData(m: ConfigurationKey) requires m.StopTxnAlignedData? ensures m.Rank() == 11 && m.Next() == Some(ConfigurationKey.StopTxnSampledData) && AtRank(11) == Some(ConfigurationKey.StopTxnAlignedData) { }
    static lemma PrecedesStopTxnAlignedData() ensures Below("StopTxnAlignedData", "StopTxnSampledData") { assert "StopTxnAlignedData"[..7] == "StopTxnSampledData"[..7]; }
    static lemma NextAboveStopTxnAlignedData(m: ConfigurationKey)
      requires m.StopTxnAlignedData?
      ensures m.Rank() + 1 < Size && AtRank(m.Rank()) == Some(m)
      ensures m.Next().Some? && m.Next().value.Rank() == m.Rank() + 1
      ensures Below(m.ToWire(), m.Next().value.ToWire())
    {
      RankOfStopTxnAlignedData(m);
      RankOfStopTxnSampledData(m.Next().value);
      WireOfStopTxnAlignedData(m);
      WireOfStopTxnSampledData(m.Next().value);
      PrecedesStopTxnAlignedData();
    }

    static lemma WireOfStopTxnAlignedDataMaxLength(m: ConfigurationKey) requires m.StopTxnAlignedDataMaxLength? ensures m.ToWire() == "StopTxnAlignedDataMaxLength" { }
    static lemma RankOfStopTxnAlignedDataMaxLength(m: ConfigurationKey) requires m.StopTxnAlignedDataMaxLength? ensures m.Rank() == 38 && m.Next() == Some(ConfigurationKey.StopTxnSampledDataMaxLength) && AtRank(38) == Some(ConfigurationKey.StopTxnAlignedDataMaxLength) { }
    static lemma PrecedesStopTxnAlignedDataMaxLength() ensures Below("StopTxnAlignedDataMaxLength", "StopTxnSampledDataMaxLength") { assert "StopTxnAlignedDataMaxLength"[..7] == "StopTxnSampledDataMaxLength"[..7]; }
    static lemma NextAboveStopTxnAlignedDataMaxLength(m: ConfigurationKey)
      requires m.StopTxnAlignedDataMaxLength?
      ensures m.Rank() + 1 < Size && AtRank(m.Rank()) == Some(m)
      ensures m.Next().Some? && m.Next().value.Rank() == m.Rank() + 1
      ensures Below(m.ToWire(), m.Next().value.ToWire())
    {
      RankOfStopTxnAlignedDataMaxLength(m);
      RankOfStopTxnSampledDataMaxLength(m.Next().value);
      WireOfStopTxnAlignedDataMaxLength(m);
      WireOfStopTxnSampledDataMaxLength(m.Next().value);
      PrecedesStopTxnAlignedDataMaxLength();
    }

    static lemma WireOfStopTxnSampledData(m: ConfigurationKey) requires m.StopTxnSampledData? ensures m.ToWire() == "StopTxnSampledData" { }
    static lemma RankOfStopTxnSampledData(m: ConfigurationKey) requires m.StopTxnSampledData? ensures m.Rank() == 12 && m.Next() == Some(ConfigurationKey.LocalAuthListEnabled) && AtRank(12) == Some(ConfigurationKey.StopTxnSampledData) { }
    static lemma PrecedesStopTxnSampledData() ensures Below("StopTxnSampledData", "LocalAuthListEnabled") { }
    static lemma NextAboveStopTxnSampledData(m: ConfigurationKey)
      requires m.StopTxnSampledData?
      ensures m.Rank() + 1 < Size && AtRank(m.Rank()) == Some(m)
      ensures m.Next().Some? && m.Next().value.Rank() == m.Rank() + 1
      ensures Below(m.ToWire(), m.Next().value.ToWire())
    {
      RankOfStopTxnSampledData(m);
      RankOfLocalAuthListEnabled(m.Next().value);
      WireOfStopTxnSampledData(m);
      WireOfLocalAuthListEnabled(m.Next().value);
      PrecedesStopTxnSampledData();
    }

    static lemma WireOfStopTxnSampledDataMaxLength(m: ConfigurationKey) requires m.StopTxnSampledDataMaxLength? ensures m.ToWire() == "StopTxnSampledDataMaxLength" { }
    static lemma RankOfStopTxnSampledDataMaxLength(m: ConfigurationKey) requires m.StopTxnSampledDataMaxLength? ensures m.Rank() == 39 && m.Next() == Some(ConfigurationKey.MaxChargingProfilesInstalled) && AtRank(39) == Some(ConfigurationKey.StopTxnSampledDataMaxLength) { }
    static lemma PrecedesStopTxnSampledDataMaxLength() ensures Below("StopTxnSampledDataMaxLength", "MaxChargingProfilesInstalled") { }
    static lemma NextAboveStopTxnSampledDataMaxLength(m: ConfigurationKey)
      requires m.StopTxnSampledDataMaxLength?
      ensures m.Rank() + 1 < Size && AtRank(m.Rank()) == Some(m)
      ensures m.Next().Some? && m.Next().value.Rank() == m.Rank() + 1
      ensures Below(m.ToWire(), m.Next().value.ToWire())
    {
      RankOfStopTxnSampledDataMaxLength(m);
      RankOfMaxChargingProfilesInstalled(m.Next().value);
      WireOfStopTxnSampledDataMaxLength(m);
      WireOfMaxChargingProfilesInstalled(m.Next().value);
      PrecedesStopTxnSampledDataMaxLength();
    }

    static lemma WireOfSupportedFeatureProfiles(m: ConfigurationKey) requires m.SupportedFeatureProfiles? ensures m.ToWire() == "SupportedFeatureProfiles" { }
    static lemma RankOfSupportedFeatureProfiles(m: ConfigurationKey) requires m.SupportedFeatureProfiles? ensures m.Rank() == 28 && m.Next() == Some(ConfigurationKey.AuthorizationCacheEnabled) && AtRank(28) == Some(ConfigurationKey.SupportedFeatureProfiles) { }
    static lemma PrecedesSupportedFeatureProfiles() ensures Below("SupportedFeatureProfiles", "AuthorizationCacheEnabled") { }
    static lemma NextAboveSupportedFeatureProfiles(m: ConfigurationKey)
      requires m.SupportedFeatureProfiles?
      ensures m.Rank() + 1 < Size && AtRank(m.Rank()) == Some(m)
      ensures m.Next().Some? && m.Next().value.Rank() == m.Rank() + 1
      ensures Below(m.ToWire(), m.Next().value.ToWire())
    {
      RankOfSupportedFeatureProfiles(m);
      RankOfAuthorizationCacheEnabled(m.Next().value);
      WireOfSupportedFeatureProfiles(m);
      WireOfAuthorizationCacheEnabled(m.Next().value);
      PrecedesSupportedFeatureProfiles();
    }

    static lemma WireOfSupportedFeatureProfilesMaxLength(m: ConfigurationKey) requires m.SupportedFeatureProfilesMaxLength? ensures m.ToWire() == "SupportedFeatureProfilesMaxLength" { }
    static lemma RankOfSupportedFeatureProfilesMaxLength(m: ConfigurationKey) requires m.SupportedFeatureProfilesMaxLength? ensures m.Rank() == 51 && m.Next() == Some(ConfigurationKey.UnlockConnectorOnEvSideDisconnect) && AtRank(51) == Some(ConfigurationKey.SupportedFeatureProfilesMaxLength) { }
    static lemma PrecedesSupportedFeatureProfilesMaxLength() ensures Below("SupportedFeatureProfilesMaxLength", "UnlockConnectorOnEVSideDisconnect") { assert "SupportedFeatureProfilesMaxLength"[..0] == "UnlockConnectorOnEVSideDisconnect"[..0]; }
    static lemma NextAboveSupportedFeatureProfilesMaxLength(m: ConfigurationKey)
      requires m.SupportedFeatureProfilesMaxLength?
      ensures m.Rank() + 1 < Size && AtRank(m.Rank()) == Some(m)
      ensures m.Next().Some? && m.Next().value.Rank() == m.Rank() + 1
      ensures Below(m.ToWire(), m.Next().value.ToWire())
    {
      RankOfSupportedFeatureProfilesMaxLength(m);
      RankOfUnlockConnectorOnEvSideDisconnect(m.Next().value);
      WireOfSupportedFeatureProfilesMaxLength(m);
      WireOfUnlockConnectorOnEvSideDisconnect(m.Next().value);
      PrecedesSupportedFeatureProfilesMaxLength();
    }

    static lemma WireOfTransactionMessageAttempts(m: ConfigurationKey) requires m.TransactionMessageAttempts? ensures m.ToWire() == "TransactionMessageAttempts" { }
    static lemma RankOfTransactionMessageAttempts(m: ConfigurationKey) requires m.TransactionMessageAttempts? ensures m.Rank() == 37 && m.Next() == Some(ConfigurationKey.StopTxnAlignedDataMaxLength) && AtRank(37) == Some(ConfigurationKey.TransactionMessageAttempts) { }
    static lemma PrecedesTransactionMessageAttempts() ensures Below("TransactionMessageAttempts", "StopTxnAlignedDataMaxLength") { }
    static lemma NextAboveTransactionMessageAttempts(m: ConfigurationKey)
      requires m.TransactionMessageAttempts?
      ensures m.Rank() + 1 < Size && AtRank(m.Rank()) == Some(m)
      ensures m.Next().Some? && m.Next().value.Rank() == m.Rank() + 1
      ensures Below(m.ToWire(), m.Next().value.ToWire())
    {
      RankOfTransactionMessageAttempts(m);
      RankOfStopTxnAlignedDataMaxLength(m.Next().value);
      WireOfTransactionMessageAttempts(m);
      WireOfStopTxnAlignedDataMaxLength(m.Next().value);
      PrecedesTransactionMessageAttempts();
    }

    static lemma WireOfTransactionMessageRetryInterval(m: ConfigurationKey) requires m.TransactionMessageRetryInterval? ensures m.ToWire() == "TransactionMessageRetryInterval" { }
    static lemma RankOfTransactionMessageRetryInterval(m: ConfigurationKey) requires m.TransactionMessageRetryInterval? ensures m.Rank() == 47 && m.Next() == Some(ConfigurationKey.CentralContractValidationAllowed) && AtRank(47) == Some(ConfigurationKey.TransactionMessageRetryInterval) { }
    static lemma PrecedesTransactionMessageRetryInterval() ensures Below("TransactionMessageRetryInterval", "CentralContractValidationAllowed") { }
    static lemma NextAboveTransactionMessageRetryInterval(m: ConfigurationKey)
      requires m.TransactionMessageRetryInterval?
      ensures m.Rank() + 1 < Size && AtRank(m.Rank()) == Some(m)
      ensures m.Next().Some? && m.Next().value.Rank() == m.Rank() + 1
      ensures Below(m.ToWire(), m.Next().value.ToWire())
    {
      RankOfTransactionMessageRetryInterval(m);
      RankOfCentralContractValidationAllowed(m.Next().value);
      WireOfTransactionMessageRetryInterval(m);
      WireOfCentralContractValidationAllowed(m.Next().value);
      PrecedesTransactionMessageRetryInterval();
    }

    static lemma WireOfUnlockConnectorOnEvSideDisconnect(m: ConfigurationKey) requires m.UnlockConnectorOnEvSideDisconnect? ensures m.ToWire() == "UnlockConnectorOnEVSideDisconnect" { }
    static lemma RankOfUnlockConnectorOnEvSideDisconnect(m: ConfigurationKey) requires m.UnlockConnectorOnEvSideDisconnect? ensures m.Rank() == 52 && m.Next() == Some(ConfigurationKey.ChargingScheduleAllowedChargingRateUnit) && AtRank(52) == Some(ConfigurationKey.UnlockConnectorOnEvSideDisconnect) { }
    static lemma PrecedesUnlockConnectorOnEvSideDisconnect() ensures Below("UnlockConnectorOnEVSideDisconnect", "ChargingScheduleAllowedChargingRateUnit") { }
    static lemma NextAboveUnlockConnectorOnEvSideDisconnect(m: ConfigurationKey)
      requires m.UnlockConnectorOnEvSideDisconnect?
      ensures m.Rank() + 1 < Size && AtRank(m.Rank()) == Some(m)
      ensures m.Next().Some? && m.Next().value.Rank() == m.Rank() + 1
      ensures Below(m.ToWire(), m.Next().value.ToWire())
    {
      RankOfUnlockConnectorOnEvSideDisconnect(m);
      RankOfChargingScheduleAllowedChargingRateUnit(m.Next().value);
      WireOfUnlockConnectorOnEvSideDisconnect(m);
      WireOfChargingScheduleAllowedChargingRateUnit(m.Next().value);
      PrecedesUnlockConnectorOnEvSideDisconnect();
    }

    static lemma WireOfWebSocketPingInterval(m: ConfigurationKey) requires m.WebSocketPingInterval? ensures m.ToWire() == "WebSocketPingInterval" { }
    static lemma RankOfWebSocketPingInterval(m: ConfigurationKey) requires m.WebSocketPingInterval? ensures m.Rank() == 17 && m.Next() == Some(ConfigurationKey.CertSigningRepeatTimes) && AtRank(17) == Some(ConfigurationKey.WebSocketPingInterval) { }
    static lemma PrecedesWebSocketPingInterval() ensures Below("WebSocketPingInterval", "CertSigningRepeatTimes") { }
    static lemma NextAboveWebSocketPingInterval(m: ConfigurationKey)
      requires m.WebSocketPingInterval?
      ensures m.Rank() + 1 < Size && AtRank(m.Rank()) == Some(m)
      ensures m.Next().Some? && m.Next().value.Rank() == m.Rank() + 1
      ensures Below(m.ToWire(), m.Next().value.ToWire())
    {
      RankOfWebSocketPingInterval(m);
      RankOfCertSigningRepeatTimes(m.Next().value);
      WireOfWebSocketPingInterval(m);
      WireOfCertSigningRepeatTimes(m.Next().value);
      PrecedesWebSocketPingInterval();
    }

    static lemma WireOfLocalAuthListEnabled(m: ConfigurationKey) requires m.LocalAuthListEnabled? ensures m.ToWire() == "LocalAuthListEnabled" { }
    static lemma RankOfLocalAuthListEnabled(m: ConfigurationKey) requires m.LocalAuthListEnabled? ensures m.Rank() == 13 && m.Next() == Some(ConfigurationKey.MaxEnergyOnInvalidId) && AtRank(13) == Some(ConfigurationKey.LocalAuthListEnabled) { }
    static lemma PrecedesLocalAuthListEnabled() ensures Below("LocalAuthListEnabled", "MaxEnergyOnInvalidId") { assert "LocalAuthListEnabled"[..0] == "MaxEnergyOnInvalidId"[..0]; }
    static lemma NextAboveLocalAuthListEnabled(m: ConfigurationKey)
      requires m.LocalAuthListEnabled?
      ensures m.Rank() + 1 < Size && AtRank(m.Rank()) == Some(m)
      ensures m.Next().Some? && m.Next().value.Rank() == m.Rank() + 1
      ensures Below(m.ToWire(), m.Next().value.ToWire())
    {
      RankOfLocalAuthListEnabled(m);
      RankOfMaxEnergyOnInvalidId(m.Next().value);
      WireOfLocalAuthListEnabled(m);
      WireOfMaxEnergyOnInvalidId(m.Next().value);
      PrecedesLocalAuthListEnabled();
    }

    static lemma WireOfLocalAuthListMaxLength(m: ConfigurationKey) requires m.LocalAuthListMaxLength? ensures m.ToWire() == "LocalAuthListMaxLength" { }
    static lemma RankOfLocalAuthListMaxLength(m: ConfigurationKey) requires m.LocalAuthListMaxLength? ensures m.Rank() == 21 && m.Next() == Some(ConfigurationKey.MeterValuesAlignedData) && AtRank(21) == Some(ConfigurationKey.LocalAuthListMaxLength) { }
    static lemma PrecedesLocalAuthListMaxLength() ensures Below("LocalAuthListMaxLength", "MeterValuesAlignedData") { assert "LocalAuthListMaxLength"[..0] == "MeterValuesAlignedData"[..0]; }
    static lemma NextAboveLocalAuthListMaxLength(m: ConfigurationKey)
      requires m.LocalAuthListMaxLength?
      ensures m.Rank() + 1 < Size && AtRank(m.Rank()) == Some(m)
      ensures m.Next().Some? && m.Next().value.Rank() == m.Rank() + 1
      ensures Below(m.ToWire(), m.Next().value.ToWire())
    {
      RankOfLocalAuthListMaxLength(m);
      RankOfMeterValuesAlignedData(m.Next().value);
      WireOfLocalAuthListMaxLength(m);
      WireOfMeterValuesAlignedData(m.Next().value);
      PrecedesLocalAuthListMaxLength();
    }

    static lemma WireOfSendLocalListMaxLength(m: ConfigurationKey) requires m.SendLocalListMaxLength? ensures m.ToWire() == "SendLocalListMaxLength" { }
    static lemma RankOfSendLocalListMaxLength(m: ConfigurationKey) requires m.SendLocalListMaxLength? ensures m.Rank() == 24 && m.Next() == Some(ConfigurationKey.GetConfigurationMaxKeys) && AtRank(24) == Some(ConfigurationKey.SendLocalListMaxLength) { }
    static lemma PrecedesSendLocalListMaxLength() ensures Below("SendLocalListMaxLength", "GetConfigurationMaxKeys") { }
    static lemma NextAboveSendLocalListMaxLength(m: ConfigurationKey)
      requires m.SendLocalListMaxLength?
      ensures m.Rank() + 1 < Size && AtRank(m.Rank()) == Some(m)
      ensures m.Next().Some? && m.Next().value.Rank() == m.Rank() + 1
      ensures Below(m.ToWire(), m.Next().value.ToWire())
    {
      RankOfSendLocalListMaxLength(m);
      RankOfGetConfigurationMaxKeys(m.Next().value);
      WireOfSendLocalListMaxLength(m);
      WireOfGetConfigurationMaxKeys(m.Next().value);
      PrecedesSendLocalListMaxLength();
    }

    static lemma WireOfReserveConnectorZeroSupported(m: ConfigurationKey) requires m.ReserveConnectorZeroSupported? ensures m.ToWire() == "ReserveConnectorZeroSupported" { }
    static lemma RankOfReserveConnectorZeroSupported(m: ConfigurationKey) requires m.ReserveConnectorZeroSupported? ensures m.Rank() == 42 && m.Next() == Some(ConfigurationKey.AdditionalRootCertificateCheck) && AtRank(42) == Some(ConfigurationKey.ReserveConnectorZeroSupported) { }
    static lemma PrecedesReserveConnectorZeroSupported() ensures Below("ReserveConnectorZeroSupported", "AdditionalRootCertificateCheck") { }
    static lemma NextAboveReserveConnectorZeroSupported(m: ConfigurationKey)
      requires m.ReserveConnectorZeroSupported?
      ensures m.Rank() + 1 < Size && AtRank(m.Rank()) == Some(m)
      ensures m.Next().Some? && m.Next().value.Rank() == m.Rank() + 1
      ensures Below(m.ToWire(), m.Next().value.ToWire())
    {
      RankOfReserveConnectorZeroSupported(m);
      RankOfAdditionalRootCertificateCheck(m.Next().value);
      WireOfReserveConnectorZeroSupported(m);
      WireOfAdditionalRootCertificateCheck(m.Next().value);
      PrecedesReserveConnectorZeroSupported();
    }

    static lemma WireOfChargeProfileMaxStackLevel(m: ConfigurationKey) requires m.ChargeProfileMaxStackLevel? ensures m.ToWire() == "ChargeProfileMaxStackLevel" { }
    static lemma RankOfChargeProfileMaxStackLevel(m: ConfigurationKey) requires m.ChargeProfileMaxStackLevel? ensures m.Rank() == 34 && m.Next() == Some(ConfigurationKey.ChargingScheduleMaxPeriods) && AtRank(34) == Some(ConfigurationKey.ChargeProfileMaxStackLevel) { }
    static lemma PrecedesChargeProfileMaxStackLevel() ensures Below("ChargeProfileMaxStackLevel", "ChargingScheduleMaxPeriods") { assert "ChargeProfileMaxStackLevel"[..5] == "ChargingScheduleMaxPeriods"[..5]; }
    static lemma NextAboveChargeProfileMaxStackLevel(m: ConfigurationKey)
      requires m.ChargeProfileMaxStackLevel?
      ensures m.Rank() + 1 < Size && AtRank(m.Rank()) == Some(m)
      ensures m.Next().Some? && m.Next().value.Rank() == m.Rank() + 1
      ensures Below(m.ToWire(), m.Next().value.ToWire())
    {
      RankOfChargeProfileMaxStackLevel(m);
      RankOfChargingScheduleMaxPeriods(m.Next().value);
      WireOfChargeProfileMaxStackLevel(m);
      WireOfChargingScheduleMaxPeriods(m.Next().value);
      PrecedesChargeProfileMaxStackLevel();
    }

    static lemma WireOfChargingScheduleAllowedChargingRateUnit(m: ConfigurationKey) requires m.ChargingScheduleAllowedChargingRateUnit? ensures m.ToWire() == "ChargingScheduleAllowedChargingRateUnit" { }
    static lemma RankOfChargingScheduleAllowedChargingRateUnit(m: ConfigurationKey) requires m.ChargingScheduleAllowedChargingRateUnit? ensures m.Rank() == 53 && m.Next() == None && AtRank(53) == Some(ConfigurationKey.ChargingScheduleAllowedChargingRateUnit) { }

    static lemma WireOfChargingScheduleMaxPeriods(m: ConfigurationKey) requires m.ChargingScheduleMaxPeriods? ensures m.ToWire() == "ChargingScheduleMaxPeriods" { }
    static lemma RankOfChargingScheduleMaxPeriods(m: ConfigurationKey) requires m.ChargingScheduleMaxPeriods? ensures m.Rank() == 35 && m.Next() == Some(ConfigurationKey.StopTransactionOnInvalidId) && AtRank(35) == Some(ConfigurationKey.ChargingScheduleMaxPeriods) { }
    static lemma PrecedesChargingScheduleMaxPeriods() ensures Below("ChargingScheduleMaxPeriods", "StopTransactionOnInvalidId") { assert "ChargingScheduleMaxPeriods"[..0] == "StopTransactionOnInvalidId"[..0]; }
    static lemma NextAboveChargingScheduleMaxPeriods(m: ConfigurationKey)
      requires m.ChargingScheduleMaxPeriods?
      ensures m.Rank() + 1 < Size && AtRank(m.Rank()) == Some(m)
      ensures m.Next().Some? && m.Next().value.Rank() == m.Rank() + 1
      ensures Below(m.ToWire(), m.Next().value.ToWire())
    {
      RankOfChargingScheduleMaxPeriods(m);
      RankOfStopTransactionOnInvalidId(m.Next().value);
      WireOfChargingScheduleMaxPeriods(m);
      WireOfStopTransactionOnInvalidId(m.Next().value);
      PrecedesChargingScheduleMaxPeriods();
    }

    static lemma WireOfConnectorSwitch3to1PhaseSupported(m: ConfigurationKey) requires m.ConnectorSwitch3to1PhaseSupported? ensures m.ToWire() == "ConnectorSwitch3to1PhaseSupported" { }
    static lemma RankOfConnectorSwitch3to1PhaseSupported(m: ConfigurationKey) requires m.ConnectorSwitch3to1PhaseSupported? ensures m.Rank() == 49 && m.Next() == Some(ConfigurationKey.StopTransactionOnEvSideDisconnect) && AtRank(49) == Some(ConfigurationKey.ConnectorSwitch3to1PhaseSupported) { }
    static lemma PrecedesConnectorSwitch3to1PhaseSupported() ensures Below("ConnectorSwitch3to1PhaseSupported", "StopTransactionOnEVSideDisconnect") { assert "ConnectorSwitch3to1PhaseSupported"[..0] == "StopTransactionOnEVSideDisconnect"[..0]; }
    static lemma NextAboveConnectorSwitch3to1PhaseSupported(m: ConfigurationKey)
      requires m.ConnectorSwitch3to1PhaseSupported?
      ensures m.Rank() + 1 < Size && AtRank(m.Rank()) == Some(m)
      ensures m.Next().Some? && m.Next().value.Rank() == m.Rank() + 1
      ensures Below(m.ToWire(), m.Next().value.ToWire())
    {
      RankOfConnectorSwitch3to1PhaseSupported(m);
      RankOfStopTransactionOnEvSideDisconnect(m.Next().value);
      WireOfConnectorSwitch3to1PhaseSupported(m);
      WireOfStopTransactionOnEvSideDisconnect(m.Next().value);
      PrecedesConnectorSwitch3to1PhaseSupported();
    }

    static lemma WireOfMaxChargingProfilesInstalled(m: ConfigurationKey) requires m.MaxChargingProfilesInstalled? ensures m.ToWire() == "MaxChargingProfilesInstalled" { }
    static lemma RankOfMaxChargingProfilesInstalled(m: ConfigurationKey) requires m.MaxChargingProfilesInstalled? ensures m.Rank() == 40 && m.Next() == Some(ConfigurationKey.CertificateSignedMaxChainSize) && AtRank(40) == Some(ConfigurationKey.MaxChargingProfilesInstalled) { }
    static lemma PrecedesMaxChargingProfilesInstalled() ensures Below("MaxChargingProfilesInstalled", "CertificateSignedMaxChainSize") { }
    static lemma NextAboveMaxChargingProfilesInstalled(m: ConfigurationKey)
      requires m.MaxChargingProfilesInstalled?
      ensures m.Rank() + 1 < Size && AtRank(m.Rank()) == Some(m)
      ensures m.Next().Some? && m.Next().value.Rank() == m.Rank() + 1
      ensures Below(m.ToWire(), m.Next().value.ToWire())
    {
      RankOfMaxChargingProfilesInstalled(m);
      RankOfCertificateSignedMaxChainSize(m.Next().value);
      WireOfMaxChargingProfilesInstalled(m);
      WireOfCertificateSignedMaxChainSize(m.Next().value);
      PrecedesMaxChargingProfilesInstalled();
    }

    static lemma WireOfCentralContractValidationAllowed(m: ConfigurationKey) requires m.CentralContractValidationAllowed? ensures m.ToWire() == "CentralContractValidationAllowed" { }
    static lemma RankOfCentralContractValidationAllowed(m: ConfigurationKey) requires m.CentralContractValidationAllowed? ensures m.Rank() == 48 && m.Next() == Some(ConfigurationKey.ConnectorSwitch3to1PhaseSupported) && AtRank(48) == Some(ConfigurationKey.CentralContractValidationAllowed) { }
    static lemma PrecedesCentralContractValidationAllowed() ensures Below("CentralContractValidationAllowed", "ConnectorSwitch3to1PhaseSupported") { }
    static lemma NextAboveCentralContractValidationAllowed(m: ConfigurationKey)
      requires m.CentralContractValidationAllowed?
      ensures m.Rank() + 1 < Size && AtRank(m.Rank()) == Some(m)
      ensures m.Next().Some? && m.Next().value.Rank() == m.Rank() + 1
      ensures Below(m.ToWire(), m.Next().value.ToWire())
    {
      RankOfCentralContractValidationAllowed(m);
      RankOfConnectorSwitch3to1PhaseSupported(m.Next().value);
      WireOfCentralContractValidationAllowed(m);
      WireOfConnectorSwitch3to1PhaseSupported(m.Next().value);
      PrecedesCentralContractValidationAllowed();
    }

    static lemma WireOfCertificateSignedMaxChainSize(m: ConfigurationKey) requires m.CertificateSignedMaxChainSize? ensures m.ToWire() == "CertificateSignedMaxChainSize" { }
    static lemma RankOfCertificateSignedMaxChainSize(m: ConfigurationKey) requires m.CertificateSignedMaxChainSize? ensures m.Rank() == 41 && m.Next() == Some(ConfigurationKey.ReserveConnectorZeroSupported) && AtRank(41) == Some(ConfigurationKey.CertificateSignedMaxChainSize) { }
    static lemma PrecedesCertificateSignedMaxChainSize() ensures Below("CertificateSignedMaxChainSize", "ReserveConnectorZeroSupported") { assert "CertificateSignedMaxChainSize"[..0] == "ReserveConnectorZeroSupported"[..0]; }
    static lemma NextAboveCertificateSignedMaxChainSize(m: ConfigurationKey)
      requires m.CertificateSignedMaxChainSize?
      ensures m.Rank() + 1 < Size && AtRank(m.Rank()) == Some(m)
      ensures m.Next().Some? && m.Next().value.Rank() == m.Rank() + 1
      ensures Below(m.ToWire(), m.Next().value.ToWire())
    {
      RankOfCertificateSignedMaxChainSize(m);
      RankOfReserveConnectorZeroSupported(m.Next().value);
      WireOfCertificateSignedMaxChainSize(m);
      WireOfReserveConnectorZeroSupported(m.Next().value);
      PrecedesCertificateSignedMaxChainSize();
    }

    static lemma WireOfCertSigningWaitMinimum(m: ConfigurationKey) requires m.CertSigningWaitMinimum? ensures m.ToWire() == "CertSigningWaitMinimum" { }
    static lemma RankOfCertSigningWaitMinimum(m: ConfigurationKey) requires m.CertSigningWaitMinimum? ensures m.Rank() == 19 && m.Next() == Some(ConfigurationKey.ConnectorPhaseRotation) && AtRank(19) == Some(ConfigurationKey.CertSigningWaitMinimum) { }
    static lemma PrecedesCertSigningWaitMinimum() ensures Below("CertSigningWaitMinimum", "ConnectorPhaseRotation") { assert "CertSigningWaitMinimum"[..1] == "ConnectorPhaseRotation"[..1]; }
    static lemma NextAboveCertSigningWaitMinimum(m: ConfigurationKey)
      requires m.CertSigningWaitMinimum?
      ensures m.Rank() + 1 < Size && AtRank(m.Rank()) == Some(m)
      ensures m.Next().Some? && m.Next().value.Rank() == m.Rank() + 1
      ensures Below(m.ToWire(), m.Next().value.ToWire())
    {
      RankOfCertSigningWaitMinimum(m);
      RankOfConnectorPhaseRotation(m.Next().value);
      WireOfCertSigningWaitMinimum(m);
      WireOfConnectorPhaseRotation(m.Next().value);
      PrecedesCertSigningWaitMinimum();
    }

    static lemma WireOfCertSigningRepeatTimes(m: ConfigurationKey) requires m.CertSigningRepeatTimes? ensures m.ToWire() == "CertSigningRepeatTimes" { }
    static lemma RankOfCertSigningRepeatTimes(m: ConfigurationKey) requires m.CertSigningRepeatTimes? ensures m.Rank() == 18 && m.Next() == Some(ConfigurationKey.CertSigningWaitMinimum) && AtRank(18) == Some(ConfigurationKey.CertSigningRepeatTimes) { }
    static lemma PrecedesCertSigningRepeatTimes() ensures Below("CertSigningRepeatTimes", "CertSigningWaitMinimum") { assert "CertSigningRepeatTimes"[..11] == "CertSigningWaitMinimum"[..11]; }
    static lemma NextAboveCertSigningRepeatTimes(m: ConfigurationKey)
      requires m.CertSigningRepeatTimes?
      ensures m.Rank() + 1 < Size && AtRank(m.Rank()) == Some(m)
      ensures m.Next().Some? && m.Next().value.Rank() == m.Rank() + 1
      ensures Below(m.ToWire(), m.Next().value.ToWire())
    {
      RankOfCertSigningRepeatTimes(m);
      RankOfCertSigningWaitMinimum(m.Next().value);
      WireOfCertSigningRepeatTimes(m);
      WireOfCertSigningWaitMinimum(m.Next().value);
      PrecedesCertSigningRepeatTimes();
    }

    static lemma WireOfCertificateStoreMaxLength(m: ConfigurationKey) requires m.CertificateStoreMaxLength? ensures m.ToWire() == "CertificateStoreMaxLength" { }
    static lemma RankOfCertificateStoreMaxLength(m: ConfigurationKey) requires m.CertificateStoreMaxLength? ensures m.Rank() == 31 && m.Next() == Some(ConfigurationKey.ContractValidationOffline) && AtRank(31) == Some(ConfigurationKey.CertificateStoreMaxLength) { }
    static lemma PrecedesCertificateStoreMaxLength() ensures Below("CertificateStoreMaxLength", "ContractValidationOffline") { assert "CertificateStoreMaxLength"[..1] == "ContractValidationOffline"[..1]; }
    static lemma NextAboveCertificateStoreMaxLength(m: ConfigurationKey)
      requires m.CertificateStoreMaxLength?
      ensures m.Rank() + 1 < Size && AtRank(m.Rank()) == Some(m)
      ensures m.Next().Some? && m.Next().value.Rank() == m.Rank() + 1
      ensures Below(m.ToWire(), m.Next().value.ToWire())
    {
      RankOfCertificateStoreMaxLength(m);
      RankOfContractValidationOffline(m.Next().value);
      WireOfCertificateStoreMaxLength(m);
      WireOfContractValidationOffline(m.Next().value);
      PrecedesCertificateStoreMaxLength();
    }

    static lemma WireOfContractValidationOffline(m: ConfigurationKey) requires m.ContractValidationOffline? ensures m.ToWire() == "ContractValidationOffline" { }
    static lemma RankOfContractValidationOffline(m: ConfigurationKey) requires m.ContractValidationOffline? ensures m.Rank() == 32 && m.Next() == Some(ConfigurationKey.AllowOfflineTxForUnknownId) && AtRank(32) == Some(ConfigurationKey.ContractValidationOffline) { }
    static lemma PrecedesContractValidationOffline() ensures Below("ContractValidationOffline", "AllowOfflineTxForUnknownId") { }
    static lemma NextAboveContractValidationOffline(m: ConfigurationKey)
      requires m.ContractValidationOffline?
      ensures m.Rank() + 1 < Size && AtRank(m.Rank()) == Some(m)
      ensures m.Next().Some? && m.Next().value.Rank() == m.Rank() + 1
      ensures Below(m.ToWire(), m.Next().value.ToWire())
    {
      RankOfContractValidationOffline(m);
      RankOfAllowOfflineTxForUnknownId(m.Next().value);
      WireOfContractValidationOffline(m);
      WireOfAllowOfflineTxForUnknownId(m.Next().value);
      PrecedesContractValidationOffline();
    }

    static lemma WireOfIso15118PncEnabled(m: ConfigurationKey) requires m.Iso15118PncEnabled? ensures m.ToWire() == "ISO15118PnCEnabled" { }
    static lemma RankOfIso15118PncEnabled(m: ConfigurationKey) requires m.Iso15118PncEnabled? ensures m.Rank() == 9 && m.Next() == Some(ConfigurationKey.NumberOfConnectors) && AtRank(9) == Some(ConfigurationKey.Iso15118PncEnabled) { }
    static lemma PrecedesIso15118PncEnabled() ensures Below("ISO15118PnCEnabled", "NumberOfConnectors") { assert "ISO15118PnCEnabled"[..0] == "NumberOfConnectors"[..0]; }
    static lemma NextAboveIso15118PncEnabled(m: ConfigurationKey)
      requires m.Iso15118PncEnabled?
      ensures m.Rank() + 1 < Size && AtRank(m.Rank()) == Some(m)
      ensures m.Next().Some? && m.Next().value.Rank() == m.Rank() + 1
      ensures Below(m.ToWire(), m.Next().value.ToWire())
    {
      RankOfIso15118PncEnabled(m);
      RankOfNumberOfConnectors(m.Next().value);
      WireOfIso15118PncEnabled(m);
      WireOfNumberOfConnectors(m.Next().value);
      PrecedesIso15118PncEnabled();
    }

    static lemma WireOfAdditionalRootCertificateCheck(m: ConfigurationKey) requires m.AdditionalRootCertificateCheck? ensures m.ToWire() == "AdditionalRootCertificateCheck" { }
    static lemma RankOfAdditionalRootCertificateCheck(m: ConfigurationKey) requires m.AdditionalRootCertificateCheck? ensures m.Rank() == 43 && m.Next() == Some(ConfigurationKey.ConnectorPhaseRotationMaxLength) && AtRank(43) == Some(ConfigurationKey.AdditionalRootCertificateCheck) { }
    static lemma PrecedesAdditionalRootCertificateCheck() ensures Below("AdditionalRootCertificateCheck", "ConnectorPhaseRotationMaxLength") { }
    static lemma NextAboveAdditionalRootCertificateCheck(m: ConfigurationKey)
      requires m.AdditionalRootCertificateCheck?
      ensures m.Rank() + 1 < Size && AtRank(m.Rank()) == Some(m)
      ensures m.Next().Some? && m.Next().value.Rank() == m.Rank() + 1
      ensures Below(m.ToWire(), m.Next().value.ToWire())
    {
      RankOfAdditionalRootCertificateCheck(m);
      RankOfConnectorPhaseRotationMaxLength(m.Next().value);
      WireOfAdditionalRootCertificateCheck(m);
      WireOfConnectorPhaseRotationMaxLength(m.Next().value);
      PrecedesAdditionalRootCertificateCheck();
    }

    static lemma WireOfAuthorizationKey(m: ConfigurationKey) requires m.AuthorizationKey? ensures m.ToWire() == "AuthorizationKey" { }
    static lemma RankOfAuthorizationKey(m: ConfigurationKey) requires m.AuthorizationKey? ensures m.Rank() == 5 && m.Next() == Some(ConfigurationKey.ConnectionTimeOut) && AtRank(5) == Some(ConfigurationKey.AuthorizationKey) { }
    static lemma PrecedesAuthorizationKey() ensures Below("AuthorizationKey", "ConnectionTimeOut") { }
    static lemma NextAboveAuthorizationKey(m: ConfigurationKey)
      requires m.AuthorizationKey?
      ensures m.Rank() + 1 < Size && AtRank(m.Rank()) == Some(m)
      ensures m.Next().Some? && m.Next().value.Rank() == m.Rank() + 1
      ensures Below(m.ToWire(), m.Next().value.ToWire())
    {
      RankOfAuthorizationKey(m);
      RankOfConnectionTimeOut(m.Next().value);
      WireOfAuthorizationKey(m);
      WireOfConnectionTimeOut(m.Next().value);
      PrecedesAuthorizationKey();
    }

    static lemma WireOfCpoName(m: ConfigurationKey) requires m.CpoName? ensures m.ToWire() == "CpoName" { }
    static lemma RankOfCpoName(m: ConfigurationKey) requires m.CpoName? ensures m.Rank() == 0 && m.Next() == Some(ConfigurationKey.BlinkRepeat) && AtRank(0) == Some(ConfigurationKey.CpoName) { }
    static lemma PrecedesCpoName() ensures Below("CpoName", "BlinkRepeat") { }
    static lemma NextAboveCpoName(m: ConfigurationKey)
      requires m.CpoName?
      ensures m.Rank() + 1 < Size && AtRank(m.Rank()) == Some(m)
      ensures m.Next().Some? && m.Next().value.Rank() == m.Rank() + 1
      ensures Below(m.ToWire(), m.Next().value.ToWire())
    {
      RankOfCpoName(m);
      RankOfBlinkRepeat(m.Next().value);
      WireOfCpoName(m);
      WireOfBlinkRepeat(m.Next().value);
      PrecedesCpoName();
    }

    static lemma WireOfSecurityProfile(m: ConfigurationKey) requires m.SecurityProfile? ensures m.ToWire() == "SecurityProfile" { }
    static lemma RankOfSecurityProfile(m: ConfigurationKey) requires m.SecurityProfile? ensures m.Rank() == 4 && m.Next() == Some(ConfigurationKey.AuthorizationKey) && AtRank(4) == Some(ConfigurationKey.SecurityProfile) { }
    static lemma PrecedesSecurityProfile() ensures Below("SecurityProfile", "AuthorizationKey") { }
    static lemma NextAboveSecurityProfile(m: ConfigurationKey)
      requires m.SecurityProfile?
      ensures m.Rank() + 1 < Size && AtRank(m.Rank()) == Some(m)
      ensures m.Next().Some? && m.Next().value.Rank() == m.Rank() + 1
      ensures Below(m.ToWire(), m.Next().value.ToWire())
    {
      RankOfSecurityProfile(m);
      RankOfAuthorizationKey(m.Next().value);
      WireOfSecurityProfile(m);
      WireOfAuthorizationKey(m.Next().value);
      PrecedesSecurityProfile();
    }
  }

  /** `DataTransferStatus`, declared at ocpp/v16/enums.py:393-405. */
  datatype DataTransferStatus =
    | Accepted
    | Rejected
    | UnknownMessageId
    | UnknownVendorId
  {
    /** The member's value, the string sent on the wire. */
    function ToWire(): string {
      match this
      case Accepted => "Accepted"
      case Rejected => "Rejected"
      case UnknownMessageId => "UnknownMessageId"
      case UnknownVendorId => "UnknownVendorId"
    }

    /** The member whose value is `s`, if there is one: `DataTransferStatus(s)`. */
    static function FromWire(s: string): (r: Option<DataTransferStatus>)
      ensures r.Some? ==> r.value.ToWire() == s
      ensures forall m: DataTransferStatus :: m.ToWire() == s ==> r == Some(m)
    {
      match s
      case "Accepted" => Some(DataTransferStatus.Accepted)
      case "Rejected" => Some(DataTransferStatus.Rejected)
      case "UnknownMessageId" => Some(DataTransferStatus.UnknownMessageId)
      case "UnknownVendorId" => Some(DataTransferStatus.UnknownVendorId)
      case _ => None
    }

    /** The deprecated names the class also declares, each with its declared value. */
    static const Deprecated: seq<(string, string)> := [("unknownMessageId", "UnknownMessageId"), ("unknownVendorId", "UnknownVendorId")]

    /** Every deprecated name carries the value of a member, so it is an alias of that member. */
    static lemma DeprecatedNamesAreAliases()
      ensures forall alias, value :: (alias, value) in Deprecated ==> exists m: DataTransferStatus :: m.ToWire() == value
    {
      assert DataTransferStatus.UnknownMessageId.ToWire() == "UnknownMessageId";
      assert DataTransferStatus.UnknownVendorId.ToWire() == "UnknownVendorId";
    }
  }

  /** `DeleteCertificateStatus`, declared at ocpp/v16/enums.py:408-415. */
  datatype DeleteCertificateStatus =
    | Accepted
    | Failed
    | NotFound
  {
    /** The member's value, the string sent on the wire. */
    function ToWire(): string {
      match this
      case Accepted => "Accepted"
      case Failed => "Failed"
      case NotFound => "NotFound"
    }

    /** The member whose value is `s`, if there is one: `DeleteCertificateStatus(s)`. */
    static function FromWire(s: string): (r: Option<DeleteCertificateStatus>)
      ensures r.Some? ==> r.value.ToWire() == s
      ensures forall m: DeleteCertificateStatus :: m.ToWire() == s ==> r == Some(m)
    {
      match s
      case "Accepted" => Some(DeleteCertificateStatus.Accepted)
      case "Failed" => Some(DeleteCertificateStatus.Failed)
      case "NotFound" => Some(DeleteCertificateStatus.NotFound)
      case _ => None
    }
  }

  /** `DiagnosticsStatus`, declared at ocpp/v16/enums.py:418-429. */
  datatype DiagnosticsStatus =
    | Idle
    | Uploaded
    | UploadFailed
    | Uploading
  {
    /** The member's value, the string sent on the wire. */
    function ToWire(): string {
      match this
      case Idle => "Idle"
      case Uploaded => "Uploaded"
      case UploadFailed => "UploadFailed"
      case Uploading => "Uploading"
    }

    /** The member whose value is `s`, if there is one: `DiagnosticsStatus(s)`. */
    static function FromWire(s: string): (r: Option<DiagnosticsStatus>)
      ensures r.Some? ==> r.value.ToWire() == s
      ensures forall m: DiagnosticsStatus :: m.ToWire() == s ==> r == Some(m)
    {
      match s
      case "Idle" => Some(DiagnosticsStatus.Idle)
      case "Uploaded" => Some(DiagnosticsStatus.Uploaded)
      case "UploadFailed" => Some(DiagnosticsStatus.UploadFailed)
      case "Uploading" => Some(DiagnosticsStatus.Uploading)
      case _ => None
    }

    /** The deprecated names the class also declares, each with its declared value. */
    static const Deprecated: seq<(string, string)> := [("uploadFailed", "UploadFailed")]

    /** Every deprecated name carries the value of a member, so it is an alias of that member. */
    static lemma DeprecatedNamesAreAliases()
      ensures forall alias, value :: (alias, value) in Deprecated ==> exists m: DiagnosticsStatus :: m.ToWire() == value
    {
      assert DiagnosticsStatus.UploadFailed.ToWire() == "UploadFailed";
    }
  }

  /** `FirmwareStatus`, declared at ocpp/v16/enums.py:432-458. */
  datatype FirmwareStatus =
    | Downloaded
    | DownloadFailed
    | Downloading
    | Idle
    | InstallationFailed
    | Installing
    | Installed
    | DownloadScheduled
    | DownloadPaused
    | InstallRebooting
    | InstallScheduled
    | InstallVerificationFailed
    | InvalidSignature
    | SignatureVerified
  {
    /** The member's value, the string sent on the wire. */
    function ToWire(): string {
      match this
      case Downloaded => "Downloaded"
      case DownloadFailed => "DownloadFailed"
      case Downloading => "Downloading"
      case Idle => "Idle"
      case InstallationFailed => "InstallationFailed"
      case Installing => "Installing"
      case Installed => "Installed"
      case DownloadScheduled => "DownloadScheduled"
      case DownloadPaused => "DownloadPaused"
      case InstallRebooting => "InstallRebooting"
      case InstallScheduled => "InstallScheduled"
      case InstallVerificationFailed => "InstallVerificationFailed"
      case InvalidSignature => "InvalidSignature"
      case SignatureVerified => "SignatureVerified"
    }

    /** The member whose value is `s`, if there is one: `FirmwareStatus(s)`. */
    static function FromWire(s: string): (r: Option<FirmwareStatus>)
      ensures r.Some? ==> r.value.ToWire() == s
      ensures forall m: FirmwareStatus :: m.ToWire() == s ==> r == Some(m)
    {
      match s
      case "Downloaded" => Some(FirmwareStatus.Downloaded)
      case "DownloadFailed" => Some(FirmwareStatus.DownloadFailed)
      case "Downloading" => Some(FirmwareStatus.Downloading)
      case "Idle" => Some(FirmwareStatus.Idle)
      case "InstallationFailed" => Some(FirmwareStatus.InstallationFailed)
      case "Installing" => Some(FirmwareStatus.Installing)
      case "Installed" => Some(FirmwareStatus.Installed)
      case "DownloadScheduled" => Some(FirmwareStatus.DownloadScheduled)
      case "DownloadPaused" => Some(FirmwareStatus.DownloadPaused)
      case "InstallRebooting" => Some(FirmwareStatus.InstallRebooting)
      case "InstallScheduled" => Some(FirmwareStatus.InstallScheduled)
      case "InstallVerificationFailed" => Some(FirmwareStatus.InstallVerificationFailed)
      case "InvalidSignature" => Some(FirmwareStatus.InvalidSignature)
      case "SignatureVerified" => Some(FirmwareStatus.SignatureVerified)
      case _ => None
    }

    /** The deprecated names the class also declares, each with its declared value. */
    static const Deprecated: seq<(string, string)> := [("downloadFailed", "DownloadFailed"), ("installationFailed", "InstallationFailed")]

    /** Every deprecated name carries the value of a member, so it is an alias of that member. */
    static lemma DeprecatedNamesAreAliases()
      ensures forall alias, value :: (alias, value) in Deprecated ==> exists m: FirmwareStatus :: m.ToWire() == value
    {
      assert FirmwareStatus.DownloadFailed.ToWire() == "DownloadFailed";
      assert FirmwareStatus.InstallationFailed.ToWire() == "InstallationFailed";
    }
  }

  /** `GenericStatus`, declared at ocpp/v16/enums.py:461-467. */
  datatype GenericStatus =
    | Accepted
    | Rejected
  {
    /** The member's value, the string sent on the wire. */
    function ToWire(): string {
      match this
      case Accepted => "Accepted"
      case Rejected => "Rejected"
    }

    /** The member whose value is `s`, if there is one: `GenericStatus(s)`. */
    static function FromWire(s: string): (r: Option<GenericStatus>)
      ensures r.Some? ==> r.value.ToWire() == s
      ensures forall m: GenericStatus :: m.ToWire() == s ==> r == Some(m)
    {
      match s
      case "Accepted" => Some(GenericStatus.Accepted)
      case "Rejected" => Some(GenericStatus.Rejected)
      case _ => None
    }
  }

  /** `GetCompositeScheduleStatus`, declared at ocpp/v16/enums.py:470-476. */
  datatype GetCompositeScheduleStatus =
    | Accepted
    | Rejected
  {
    /** The member's value, the string sent on the wire. */
    function ToWire(): string {
      match this
      case Accepted => "Accepted"
      case Rejected => "Rejected"
    }

    /** The member whose value is `s`, if there is one: `GetCompositeScheduleStatus(s)`. */
    static function FromWire(s: string): (r: Option<GetCompositeScheduleStatus>)
      ensures r.Some? ==> r.value.ToWire() == s
      ensures forall m: GetCompositeScheduleStatus :: m.ToWire() == s ==> r == Some(m)
    {
      match s
      case "Accepted" => Some(GetCompositeScheduleStatus.Accepted)
      case "Rejected" => Some(GetCompositeScheduleStatus.Rejected)
      case _ => None
    }
  }

  /** `GetInstalledCertificateStatus`, declared at ocpp/v16/enums.py:479-486. */
  datatype GetInstalledCertificateStatus =
    | Accepted
    | NotFound
  {
    /** The member's value, the string sent on the wire. */
    function ToWire(): string {
      match this
      case Accepted => "Accepted"
      case NotFound => "NotFound"
    }

    /** The member whose value is `s`, if there is one: `GetInstalledCertificateStatus(s)`. */
    static function FromWire(s: string): (r: Option<GetInstalledCertificateStatus>)
      ensures r.Some? ==> r.value.ToWire() == s
      ensures forall m: GetInstalledCertificateStatus :: m.ToWire() == s ==> r == Some(m)
    {
      match s
      case "Accepted" => Some(GetInstalledCertificateStatus.Accepted)
      case "NotFound" => Some(GetInstalledCertificateStatus.NotFound)
      case _ => None
    }
  }

  /** `HashAlgorithm`, declared at ocpp/v16/enums.py:489-496. */
  datatype HashAlgorithm =
    | Sha256
    | Sha384
    | Sha512
  {
    /** The member's value, the string sent on the wire. */
    function ToWire(): string {
      match this
      case Sha256 => "SHA256"
      case Sha384 => "SHA384"
      case Sha512 => "SHA512"
    }

    /** The member whose value is `s`, if there is one: `HashAlgorithm(s)`. */
    static function FromWire(s: string): (r: Option<HashAlgorithm>)
      ensures r.Some? ==> r.value.ToWire() == s
      ensures forall m: HashAlgorithm :: m.ToWire() == s ==> r == Some(m)
    {
      match s
      case "SHA256" => Some(HashAlgorithm.Sha256)
      case "SHA384" => Some(HashAlgorithm.Sha384)
      case "SHA512" => Some(HashAlgorithm.Sha512)
      case _ => None
    }
  }

  /** `Location`, declared at ocpp/v16/enums.py:499-509. */
  datatype Location =
    | Inlet
    | Outlet
    | Body
    | Cable
    | Ev
  {
    /** The member's value, the string sent on the wire. */
    function ToWire(): string {
      match this
      case Inlet => "Inlet"
      case Outlet => "Outlet"
      case Body => "Body"
      case Cable => "Cable"
      case Ev => "EV"
    }

    /** The member whose value is `s`, if there is one: `Location(s)`. */
    static function FromWire(s: string): (r: Option<Location>)
      ensures r.Some? ==> r.value.ToWire() == s
      ensures forall m: Location :: m.ToWire() == s ==> r == Some(m)
    {
      match s
      case "Inlet" => Some(Location.Inlet)
      case "Outlet" => Some(Location.Outlet)
      case "Body" => Some(Location.Body)
      case "Cable" => Some(Location.Cable)
      case "EV" => Some(Location.Ev)
      case _ => None
    }
  }

  /** `Log`, declared at ocpp/v16/enums.py:512-518. */
  datatype Log =
    | DiagnosticsLog
    | SecurityLog
  {
    /** The member's value, the string sent on the wire. */
    function ToWire(): string {
      match this
      case DiagnosticsLog => "DiagnosticsLog"
      case SecurityLog => "SecurityLog"
    }

    /** The member whose value is `s`, if there is one: `Log(s)`. */
    static function FromWire(s: string): (r: Option<Log>)
      ensures r.Some? ==> r.value.ToWire() == s
      ensures forall m: Log :: m.ToWire() == s ==> r == Some(m)
    {
      match s
      case "DiagnosticsLog" => Some(Log.DiagnosticsLog)
      case "SecurityLog" => Some(Log.SecurityLog)
      case _ => None
    }
  }

  /** `LogStatus`, declared at ocpp/v16/enums.py:521-528. */
  datatype LogStatus =
    | Accepted
    | Rejected
    | AcceptedCanceled
  {
    /** The member's value, the string sent on the wire. */
    function ToWire(): string {
      match this
      case Accepted => "Accepted"
      case Rejected => "Rejected"
      case AcceptedCanceled => "AcceptedCanceled"
    }

    /** The member whose value is `s`, if there is one: `LogStatus(s)`. */
    static function FromWire(s: string): (r: Option<LogStatus>)
      ensures r.Some? ==> r.value.ToWire() == s
      ensures forall m: LogStatus :: m.ToWire() == s ==> r == Some(m)
    {
      match s
      case "Accepted" => Some(LogStatus.Accepted)
      case "Rejected" => Some(LogStatus.Rejected)
      case "AcceptedCanceled" => Some(LogStatus.AcceptedCanceled)
      case _ => None
    }
  }

  /** `Measurand`, declared at ocpp/v16/enums.py:531-578. */
  datatype Measurand =
    | CurrentExport
    | CurrentImport
    | CurrentOffered
    | EnergyActiveExportRegister
    | EnergyActiveImportRegister
    | EnergyReactiveExportRegister
    | EnergyReactiveImportRegister
    | EnergyActiveExportInterval
    | EnergyActiveImportInterval
    | EnergyReactiveExportInterval
    | EnergyReactiveImportInterval
    | Frequency
    | PowerActiveExport
    | PowerActiveImport
    | PowerFactor
    | PowerOffered
    | PowerReactiveExport
    | PowerReactiveImport
    | Rpm
    | Soc
    | Temperature
    | Voltage
  {
    /** The member's value, the string sent on the wire. */
    function ToWire(): string {
      match this
      case CurrentExport => "Current.Export"
      case CurrentImport => "Current.Import"
      case CurrentOffered => "Current.Offered"
      case EnergyActiveExportRegister => "Energy.Active.Export.Register"
      case EnergyActiveImportRegister => "Energy.Active.Import.Register"
      case EnergyReactiveExportRegister => "Energy.Reactive.Export.Register"
      case EnergyReactiveImportRegister => "Energy.Reactive.Import.Register"
      case EnergyActiveExportInterval => "Energy.Active.Export.Interval"
      case EnergyActiveImportInterval => "Energy.Active.Import.Interval"
      case EnergyReactiveExportInterval => "Energy.Reactive.Export.Interval"
      case EnergyReactiveImportInterval => "Energy.Reactive.Import.Interval"
      case Frequency => "Frequency"
      case PowerActiveExport => "Power.Active.Export"
      case PowerActiveImport => "Power.Active.Import"
      case PowerFactor => "Power.Factor"
      case PowerOffered => "Power.Offered"
      case PowerReactiveExport => "Power.Reactive.Export"
      case PowerReactiveImport => "Power.Reactive.Import"
      case Rpm => "RPM"
      case Soc => "SoC"
      case Temperature => "Temperature"
      case Voltage => "Voltage"
    }

    /** The member whose value is `s`, if there is one: `Measurand(s)`. */
    static function FromWire(s: string): (r: Option<Measurand>)
      ensures r.Some? ==> r.value.ToWire() == s
      ensures forall m: Measurand :: m.ToWire() == s ==> r == Some(m)
    {
      match s
      case "Current.Export" => Some(Measurand.CurrentExport)
      case "Current.Import" => Some(Measurand.CurrentImport)
      case "Current.Offered" => Some(Measurand.CurrentOffered)
      case "Energy.Active.Export.Register" => Some(Measurand.EnergyActiveExportRegister)
      case "Energy.Active.Import.Register" => Some(Measurand.EnergyActiveImportRegister)
      case _ => FromWirePart1(s)
    }

    /** `FromWire` for the members from `EnergyReactiveExportRegister` on. */
    static function FromWirePart1(s: string): (r: Option<Measurand>)
      ensures r.Some? ==> r.value.ToWire() == s
      ensures forall m: Measurand :: !(m.CurrentExport? || m.CurrentImport? || m.CurrentOffered? || m.EnergyActiveExportRegister? || m.EnergyActiveImportRegister?) && m.ToWire() == s ==> r == Some(m)
    {
      match s
      case "Energy.Reactive.Export.Register" => Some(Measurand.EnergyReactiveExportRegister)
      case "Energy.Reactive.Import.Register" => Some(Measurand.EnergyReactiveImportRegister)
      case "Energy.Active.Export.Interval" => Some(Measurand.EnergyActiveExportInterval)
      case "Energy.Active.Import.Interval" => Some(Measurand.EnergyActiveImportInterval)
      case "Energy.Reactive.Export.Interval" => Some(Measurand.EnergyReactiveExportInterval)
      case _ => FromWirePart2(s)
    }

    /** `FromWire` for the members from `EnergyReactiveImportInterval` on. */
    static function FromWirePart2(s: string): (r: Option<Measurand>)
      ensures r.Some? ==> r.value.ToWire() == s
      ensures forall m: Measurand :: !(m.CurrentExport? || m.CurrentImport? || m.CurrentOffered? || m.EnergyActiveExportRegister? || m.EnergyActiveImportRegister? || m.EnergyReactiveExportRegister? || m.EnergyReactiveImportRegister? || m.EnergyActiveExportInterval? || m.EnergyActiveImportInterval? || m.EnergyReactiveExportInterval?) && m.ToWire() == s ==> r == Some(m)
    {
      match s
      case "Energy.Reactive.Import.Interval" => Some(Measurand.EnergyReactiveImportInterval)
      case "Frequency" => Some(Measurand.Frequency)
      case "Power.Active.Export" => Some(Measurand.PowerActiveExport)
      case "Power.Active.Import" => Some(Measurand.PowerActiveImport)
      case "Power.Factor" => Some(Measurand.PowerFactor)
      case _ => FromWirePart3(s)
    }

    /** `FromWire` for the members from `PowerOffered` on. */
    static function FromWirePart3(s: string): (r: Option<Measurand>)
      ensures r.Some? ==> r.value.ToWire() == s
      ensures forall m: Measurand :: !(m.CurrentExport? || m.CurrentImport? || m.CurrentOffered? || m.EnergyActiveExportRegister? || m.EnergyActiveImportRegister? || m.EnergyReactiveExportRegister? || m.EnergyReactiveImportRegister? || m.EnergyActiveExportInterval? || m.EnergyActiveImportInterval? || m.EnergyReactiveExportInterval? || m.EnergyReactiveImportInterval? || m.Frequency? || m.PowerActiveExport? || m.PowerActiveImport? || m.PowerFactor?) && m.ToWire() == s ==> r == Some(m)
    {
      match s
      case "Power.Offered" => Some(Measurand.PowerOffered)
      case "Power.Reactive.Export" => Some(Measurand.PowerReactiveExport)
      case "Power.Reactive.Import" => Some(Measurand.PowerReactiveImport)
      case "RPM" => Some(Measurand.Rpm)
      case "SoC" => Some(Measurand.Soc)
      case _ => FromWirePart4(s)
    }

    /** `FromWire` for the members from `Temperature` on. */
    static function FromWirePart4(s: string): (r: Option<Measurand>)
      ensures r.Some? ==> r.value.ToWire() == s
      ensures forall m: Measurand :: !(m.CurrentExport? || m.CurrentImport? || m.CurrentOffered? || m.EnergyActiveExportRegister? || m.EnergyActiveImportRegister? || m.EnergyReactiveExportRegister? || m.EnergyReactiveImportRegister? || m.EnergyActiveExportInterval? || m.EnergyActiveImportInterval? || m.EnergyReactiveExportInterval? || m.EnergyReactiveImportInterval? || m.Frequency? || m.PowerActiveExport? || m.PowerActiveImport? || m.PowerFactor? || m.PowerOffered? || m.PowerReactiveExport? || m.PowerReactiveImport? || m.Rpm? || m.Soc?) && m.ToWire() == s ==> r == Some(m)
    {
      match s
      case "Temperature" => Some(Measurand.Temperature)
      case "Voltage" => Some(Measurand.Voltage)
      case _ => None
    }

    /** The deprecated names the class also declares, each with its declared value. */
    static const Deprecated: seq<(string, string)> := [("currentExport", "Current.Export"), ("currentImport", "Current.Import"), ("currentOffered", "Current.Offered"), ("energyActiveExportRegister", "Energy.Active.Export.Register"), ("energyActiveImportRegister", "Energy.Active.Import.Register"), ("energyReactiveExportRegister", "Energy.Reactive.Export.Register"), ("energyReactiveImportRegister", "Energy.Reactive.Import.Register"), ("energyActiveExportInterval", "Energy.Active.Export.Interval"), ("energyActiveImportInterval", "Energy.Active.Import.Interval"), ("energyReactiveExportInterval", "Energy.Reactive.Export.Interval"), ("energyReactiveImportInterval", "Energy.Reactive.Import.Interval"), ("powerActiveExport", "Power.Active.Export"), ("powerActiveImport", "Power.Active.Import"), ("powerFactor", "Power.Factor"), ("powerOffered", "Power.Offered"), ("powerReactiveExport", "Power.Reactive.Export"), ("powerReactiveImport", "Power.Reactive.Import")]

    /** Every deprecated name carries the value of a member, so it is an alias of that member. */
    static lemma DeprecatedNamesAreAliases()
      ensures forall alias, value :: (alias, value) in Deprecated ==> exists m: Measurand :: m.ToWire() == value
    {
      assert Measurand.CurrentExport.ToWire() == "Current.Export";
      assert Measurand.CurrentImport.ToWire() == "Current.Import";
      assert Measurand.CurrentOffered.ToWire() == "Current.Offered";
      assert Measurand.EnergyActiveExportRegister.ToWire() == "Energy.Active.Export.Register";
      assert Measurand.EnergyActiveImportRegister.ToWire() == "Energy.Active.Import.Register";
      assert Measurand.EnergyReactiveExportRegister.ToWire() == "Energy.Reactive.Export.Register";
      assert Measurand.EnergyReactiveImportRegister.ToWire() == "Energy.Reactive.Import.Register";
      assert Measurand.EnergyActiveExportInterval.ToWire() == "Energy.Active.Export.Interval";
      assert Measurand.EnergyActiveImportInterval.ToWire() == "Energy.Active.Import.Interval";
      assert Measurand.EnergyReactiveExportInterval.ToWire() == "Energy.Reactive.Export.Interval";
      assert Measurand.EnergyReactiveImportInterval.ToWire() == "Energy.Reactive.Import.Interval";
      assert Measurand.PowerActiveExport.ToWire() == "Power.Active.Export";
      assert Measurand.PowerActiveImport.ToWire() == "Power.Active.Import";
      assert Measurand.PowerFactor.ToWire() == "Power.Factor";
      assert Measurand.PowerOffered.ToWire() == "Power.Offered";
      assert Measurand.PowerReactiveExport.ToWire() == "Power.Reactive.Export";
      assert Measurand.PowerReactiveImport.ToWire() == "Power.Reactive.Import";
    }
  }

  /** `MessageTrigger`, declared at ocpp/v16/enums.py:581-605. */
  datatype MessageTrigger =
    | BootNotification
    | FirmwareStatusNotification
    | Heartbeat
    | MeterValues
    | StatusNotification
    | DiagnosticsStatusNotification
    | LogStatusNotification
    | SignChargePointCertificate
  {
    /** The member's value, the string sent on the wire. */
    function ToWire(): string {
      match this
      case BootNotification => "BootNotification"
      case FirmwareStatusNotification => "FirmwareStatusNotification"
      case Heartbeat => "Heartbeat"
      case MeterValues => "MeterValues"
      case StatusNotification => "StatusNotification"
      case DiagnosticsStatusNotification => "DiagnosticsStatusNotification"
      case LogStatusNotification => "LogStatusNotification"
      case SignChargePointCertificate => "SignChargePointCertificate"
    }

    /** The member whose value is `s`, if there is one: `MessageTrigger(s)`. */
    static function FromWire(s: string): (r: Option<MessageTrigger>)
      ensures r.Some? ==> r.value.ToWire() == s
      ensures forall m: MessageTrigger :: m.ToWire() == s ==> r == Some(m)
    {
      match s
      case "BootNotification" => Some(MessageTrigger.BootNotification)
      case "FirmwareStatusNotification" => Some(MessageTrigger.FirmwareStatusNotification)
      case "Heartbeat" => Some(MessageTrigger.Heartbeat)
      case "MeterValues" => Some(MessageTrigger.MeterValues)
      case "StatusNotification" => Some(MessageTrigger.StatusNotification)
      case "DiagnosticsStatusNotification" => Some(MessageTrigger.DiagnosticsStatusNotification)
      case "LogStatusNotification" => Some(MessageTrigger.LogStatusNotification)
      case "SignChargePointCertificate" => Some(MessageTrigger.SignChargePointCertificate)
      case _ => None
    }

    /** The deprecated names the class also declares, each with its declared value. */
    static const Deprecated: seq<(string, string)> := [("bootNotification", "BootNotification"), ("diagnosticsStatusNotification", "DiagnosticsStatusNotification"), ("firmwareStatusNotification", "FirmwareStatusNotification"), ("meterValues", "MeterValues"), ("statusNotification", "StatusNotification")]

    /** Every deprecated name carries the value of a member, so it is an alias of that member. */
    static lemma DeprecatedNamesAreAliases()
      ensures forall alias, value :: (alias, value) in Deprecated ==> exists m: MessageTrigger :: m.ToWire() == value
    {
      assert MessageTrigger.BootNotification.ToWire() == "BootNotification";
      assert MessageTrigger.DiagnosticsStatusNotification.ToWire() == "DiagnosticsStatusNotification";
      assert MessageTrigger.FirmwareStatusNotification.ToWire() == "FirmwareStatusNotification";
      assert MessageTrigger.MeterValues.ToWire() == "MeterValues";
      assert MessageTrigger.StatusNotification.ToWire() == "StatusNotification";
    }
  }

  /** `Phase`, declared at ocpp/v16/enums.py:608-632. */
  datatype Phase =
    | L1
    | L2
    | L3
    | N
    | L1N
    | L2N
    | L3N
    | L1L2
    | L2L3
    | L3L1
  {
    /** The member's value, the string sent on the wire. */
    function ToWire(): string {
      match this
      case L1 => "L1"
      case L2 => "L2"
      case L3 => "L3"
      case N => "N"
      case L1N => "L1-N"
      case L2N => "L2-N"
      case L3N => "L3-N"
      case L1L2 => "L1-L2"
      case L2L3 => "L2-L3"
      case L3L1 => "L3-L1"
    }

    /** The member whose value is `s`, if there is one: `Phase(s)`. */
    static function FromWire(s: string): (r: Option<Phase>)
      ensures r.Some? ==> r.value.ToWire() == s
      ensures forall m: Phase :: m.ToWire() == s ==> r == Some(m)
    {
      match s
      case "L1" => Some(Phase.L1)
      case "L2" => Some(Phase.L2)
      case "L3" => Some(Phase.L3)
      case "N" => Some(Phase.N)
      case "L1-N" => Some(Phase.L1N)
      case "L2-N" => Some(Phase.L2N)
      case "L3-N" => Some(Phase.L3N)
      case "L1-L2" => Some(Phase.L1L2)
      case "L2-L3" => Some(Phase.L2L3)
      case "L3-L1" => Some(Phase.L3L1)
      case _ => None
    }

    /** The deprecated names the class also declares, each with its declared value. */
    static const Deprecated: seq<(string, string)> := [("l1n", "L1-N"), ("l2n", "L2-N"), ("l3n", "L3-N"), ("l1l2", "L1-L2"), ("l2l3", "L2-L3"), ("l3l1", "L3-L1")]

    /** Every deprecated name carries the value of a member, so it is an alias of that member. */
    static lemma DeprecatedNamesAreAliases()
      ensures forall alias, value :: (alias, value) in Deprecated ==> exists m: Phase :: m.ToWire() == value
    {
      assert Phase.L1N.ToWire() == "L1-N";
      assert Phase.L2N.ToWire() == "L2-N";
      assert Phase.L3N.ToWire() == "L3-N";
      assert Phase.L1L2.ToWire() == "L1-L2";
      assert Phase.L2L3.ToWire() == "L2-L3";
      assert Phase.L3L1.ToWire() == "L3-L1";
    }
  }

  /** `ReadingContext`, declared at ocpp/v16/enums.py:635-655. */
  datatype ReadingContext =
    | InterruptionBegin
    | InterruptionEnd
    | Other
    | SampleClock
    | SamplePeriodic
    | TransactionBegin
    | TransactionEnd
    | Trigger
  {
    /** The member's value, the string sent on the wire. */
    function ToWire(): string {
      match this
      case InterruptionBegin => "Interruption.Begin"
      case InterruptionEnd => "Interruption.End"
      case Other => "Other"
      case SampleClock => "Sample.Clock"
      case SamplePeriodic => "Sample.Periodic"
      case TransactionBegin => "Transaction.Begin"
      case TransactionEnd => "Transaction.End"
      case Trigger => "Trigger"
    }

    /** The member whose value is `s`, if there is one: `ReadingContext(s)`. */
    static function FromWire(s: string): (r: Option<ReadingContext>)
      ensures r.Some? ==> r.value.ToWire() == s
      ensures forall m: ReadingContext :: m.ToWire() == s ==> r == Some(m)
    {
      match s
      case "Interruption.Begin" => Some(ReadingContext.InterruptionBegin)
      case "Interruption.End" => Some(ReadingContext.InterruptionEnd)
      case "Other" => Some(ReadingContext.Other)
      case "Sample.Clock" => Some(ReadingContext.SampleClock)
      case "Sample.Periodic" => Some(ReadingContext.SamplePeriodic)
      case "Transaction.Begin" => Some(ReadingContext.TransactionBegin)
      case "Transaction.End" => Some(ReadingContext.TransactionEnd)
      case "Trigger" => Some(ReadingContext.Trigger)
      case _ => None
    }

    /** The deprecated names the class also declares, each with its declared value. */
    static const Deprecated: seq<(string, string)> := [("interruptionBegin", "Interruption.Begin"), ("interruptionEnd", "Interruption.End"), ("sampleClock", "Sample.Clock"), ("samplePeriodic", "Sample.Periodic"), ("transactionBegin", "Transaction.Begin"), ("transactionEnd", "Transaction.End")]

    /** Every deprecated name carries the value of a member, so it is an alias of that member. */
    static lemma DeprecatedNamesAreAliases()
      ensures forall alias, value :: (alias, value) in Deprecated ==> exists m: ReadingContext :: m.ToWire() == value
    {
      assert ReadingContext.InterruptionBegin.ToWire() == "Interruption.Begin";
      assert ReadingContext.InterruptionEnd.ToWire() == "Interruption.End";
      assert ReadingContext.SampleClock.ToWire() == "Sample.Clock";
      assert ReadingContext.SamplePeriodic.ToWire() == "Sample.Periodic";
      assert ReadingContext.TransactionBegin.ToWire() == "Transaction.Begin";
      assert ReadingContext.TransactionEnd.ToWire() == "Transaction.End";
    }
  }

  /** `Reason`, declared at ocpp/v16/enums.py:658-682. */
  datatype Reason =
    | EmergencyStop
    | EvDisconnected
    | HardReset
    | Local
    | Other
    | PowerLoss
    | Reboot
    | Remote
    | SoftReset
    | UnlockCommand
    | DeAuthorized
  {
    /** The member's value, the string sent on the wire. */
    function ToWire(): string {
      match this
      case EmergencyStop => "EmergencyStop"
      case EvDisconnected => "EVDisconnected"
      case HardReset => "HardReset"
      case Local => "Local"
      case Other => "Other"
      case PowerLoss => "PowerLoss"
      case Reboot => "Reboot"
      case Remote => "Remote"
      case SoftReset => "SoftReset"
      case UnlockCommand => "UnlockCommand"
      case DeAuthorized => "DeAuthorized"
    }

    /** The member whose value is `s`, if there is one: `Reason(s)`. */
    static function FromWire(s: string): (r: Option<Reason>)
      ensures r.Some? ==> r.value.ToWire() == s
      ensures forall m: Reason :: m.ToWire() == s ==> r == Some(m)
    {
      match s
      case "EmergencyStop" => Some(Reason.EmergencyStop)
      case "EVDisconnected" => Some(Reason.EvDisconnected)
      case "HardReset" => Some(Reason.HardReset)
      case "Local" => Some(Reason.Local)
      case "Other" => Some(Reason.Other)
      case "PowerLoss" => Some(Reason.PowerLoss)
      case "Reboot" => Some(Reason.Reboot)
      case "Remote" => Some(Reason.Remote)
      case "SoftReset" => Some(Reason.SoftReset)
      case "UnlockCommand" => Some(Reason.UnlockCommand)
      case "DeAuthorized" => Some(Reason.DeAuthorized)
      case _ => None
    }

    /** The deprecated names the class also declares, each with its declared value. */
    static const Deprecated: seq<(string, string)> := [("emergencyStop", "EmergencyStop"), ("evDisconnected", "EVDisconnected"), ("hardReset", "HardReset"), ("powerLoss", "PowerLoss"), ("softReset", "SoftReset"), ("unlockCommand", "UnlockCommand"), ("deAuthorized", "DeAuthorized")]

    /** Every deprecated name carries the value of a member, so it is an alias of that member. */
    static lemma DeprecatedNamesAreAliases()
      ensures forall alias, value :: (alias, value) in Deprecated ==> exists m: Reason :: m.ToWire() == value
    {
      assert Reason.EmergencyStop.ToWire() == "EmergencyStop";
      assert Reason.EvDisconnected.ToWire() == "EVDisconnected";
      assert Reason.HardReset.ToWire() == "HardReset";
      assert Reason.PowerLoss.ToWire() == "PowerLoss";
      assert Reason.SoftReset.ToWire() == "SoftReset";
      assert Reason.UnlockCommand.ToWire() == "UnlockCommand";
      assert Reason.DeAuthorized.ToWire() == "DeAuthorized";
    }
  }

  /** `RecurrencyKind`, declared at ocpp/v16/enums.py:685-693. */
  datatype RecurrencyKind =
    | Daily
    | Weekly
  {
    /** The member's value, the string sent on the wire. */
    function ToWire(): string {
      match this
      case Daily => "Daily"
      case Weekly => "Weekly"
    }

    /** The member whose value is `s`, if there is one: `RecurrencyKind(s)`. */
    static function FromWire(s: string): (r: Option<RecurrencyKind>)
      ensures r.Some? ==> r.value.ToWire() == s
      ensures forall m: RecurrencyKind :: m.ToWire() == s ==> r == Some(m)
    {
      match s
      case "Daily" => Some(RecurrencyKind.Daily)
      case "Weekly" => Some(RecurrencyKind.Weekly)
      case _ => None
    }
  }

  /** `RegistrationStatus`, declared at ocpp/v16/enums.py:696-703. */
  datatype RegistrationStatus =
    | Accepted
    | Pending
    | Rejected
  {
    /** The member's value, the string sent on the wire. */
    function ToWire(): string {
      match this
      case Accepted => "Accepted"
      case Pending => "Pending"
      case Rejected => "Rejected"
    }

    /** The member whose value is `s`, if there is one: `RegistrationStatus(s)`. */
    static function FromWire(s: string): (r: Option<RegistrationStatus>)
      ensures r.Some? ==> r.value.ToWire() == s
      ensures forall m: RegistrationStatus :: m.ToWire() == s ==> r == Some(m)
    {
      match s
      case "Accepted" => Some(RegistrationStatus.Accepted)
      case "Pending" => Some(RegistrationStatus.Pending)
      case "Rejected" => Some(RegistrationStatus.Rejected)
      case _ => None
    }
  }

  /** `RemoteStartStopStatus`, declared at ocpp/v16/enums.py:706-713. */
  datatype RemoteStartStopStatus =
    | Accepted
    | Rejected
  {
    /** The member's value, the string sent on the wire. */
    function ToWire(): string {
      match this
      case Accepted => "Accepted"
      case Rejected => "Rejected"
    }

    /** The member whose value is `s`, if there is one: `RemoteStartStopStatus(s)`. */
    static function FromWire(s: string): (r: Option<RemoteStartStopStatus>)
      ensures r.Some? ==> r.value.ToWire() == s
      ensures forall m: RemoteStartStopStatus :: m.ToWire() == s ==> r == Some(m)
    {
      match s
      case "Accepted" => Some(RemoteStartStopStatus.Accepted)
      case "Rejected" => Some(RemoteStartStopStatus.Rejected)
      case _ => None
    }
  }

  /** `ReservationStatus`, declared at ocpp/v16/enums.py:716-725. */
  datatype ReservationStatus =
    | Accepted
    | Faulted
    | Occupied
    | Rejected
    | Unavailable
  {
    /** The member's value, the string sent on the wire. */
    function ToWire(): string {
      match this
      case Accepted => "Accepted"
      case Faulted => "Faulted"
      case Occupied => "Occupied"
      case Rejected => "Rejected"
      case Unavailable => "Unavailable"
    }

    /** The member whose value is `s`, if there is one: `ReservationStatus(s)`. */
    static function FromWire(s: string): (r: Option<ReservationStatus>)
      ensures r.Some? ==> r.value.ToWire() == s
      ensures forall m: ReservationStatus :: m.ToWire() == s ==> r == Some(m)
    {
      match s
      case "Accepted" => Some(ReservationStatus.Accepted)
      case "Faulted" => Some(ReservationStatus.Faulted)
      case "Occupied" => Some(ReservationStatus.Occupied)
      case "Rejected" => Some(ReservationStatus.Rejected)
      case "Unavailable" => Some(ReservationStatus.Unavailable)
      case _ => None
    }
  }

  /** `ResetStatus`, declared at ocpp/v16/enums.py:728-734. */
  datatype ResetStatus =
    | Accepted
    | Rejected
  {
    /** The member's value, the string sent on the wire. */
    function ToWire(): string {
      match this
      case Accepted => "Accepted"
      case Rejected => "Rejected"
    }

    /** The member whose value is `s`, if there is one: `ResetStatus(s)`. */
    static function FromWire(s: string): (r: Option<ResetStatus>)
      ensures r.Some? ==> r.value.ToWire() == s
      ensures forall m: ResetStatus :: m.ToWire() == s ==> r == Some(m)
    {
      match s
      case "Accepted" => Some(ResetStatus.Accepted)
      case "Rejected" => Some(ResetStatus.Rejected)
      case _ => None
    }
  }

  /** `ResetType`, declared at ocpp/v16/enums.py:737-743. */
  datatype ResetType =
    | Hard
    | Soft
  {
    /** The member's value, the string sent on the wire. */
    function ToWire(): string {
      match this
      case Hard => "Hard"
      case Soft => "Soft"
    }

    /** The member whose value is `s`, if there is one: `ResetType(s)`. */
    static function FromWire(s: string): (r: Option<ResetType>)
      ensures r.Some? ==> r.value.ToWire() == s
      ensures forall m: ResetType :: m.ToWire() == s ==> r == Some(m)
    {
      match s
      case "Hard" => Some(ResetType.Hard)
      case "Soft" => Some(ResetType.Soft)
      case _ => None
    }
  }

  /** `TriggerMessageStatus`, declared at ocpp/v16/enums.py:746-756. */
  datatype TriggerMessageStatus =
    | Accepted
    | Rejected
    | NotImplemented
  {
    /** The member's value, the string sent on the wire. */
    function ToWire(): string {
      match this
      case Accepted => "Accepted"
      case Rejected => "Rejected"
      case NotImplemented => "NotImplemented"
    }

    /** The member whose value is `s`, if there is one: `TriggerMessageStatus(s)`. */
    static function FromWire(s: string): (r: Option<TriggerMessageStatus>)
      ensures r.Some? ==> r.value.ToWire() == s
      ensures forall m: TriggerMessageStatus :: m.ToWire() == s ==> r == Some(m)
    {
      match s
      case "Accepted" => Some(TriggerMessageStatus.Accepted)
      case "Rejected" => Some(TriggerMessageStatus.Rejected)
      case "NotImplemented" => Some(TriggerMessageStatus.NotImplemented)
      case _ => None
    }

    /** The deprecated names the class also declares, each with its declared value. */
    static const Deprecated: seq<(string, string)> := [("notImplemented", "NotImplemented")]

    /** Every deprecated name carries the value of a member, so it is an alias of that member. */
    static lemma DeprecatedNamesAreAliases()
      ensures forall alias, value :: (alias, value) in Deprecated ==> exists m: TriggerMessageStatus :: m.ToWire() == value
    {
      assert TriggerMessageStatus.NotImplemented.ToWire() == "NotImplemented";
    }
  }

  /** `UnitOfMeasure`, declared at ocpp/v16/enums.py:759-782. */
  datatype UnitOfMeasure =
    | Wh
    | Kwh
    | Varh
    | Kvarh
    | W
    | Kw
    | Va
    | Kva
    | Var
    | Kvar
    | A
    | V
    | Celsius
    | Fahrenheit
    | K
    | Percent
    | Hertz
  {
    /** The member's value, the string sent on the wire. */
    function ToWire(): string {
      match this
      case Wh => "Wh"
      case Kwh => "kWh"
      case Varh => "varh"
      case Kvarh => "kvarh"
      case W => "W"
      case Kw => "kW"
      case Va => "VA"
      case Kva => "kVA"
      case Var => "var"
      case Kvar => "kvar"
      case A => "A"
      case V => "V"
      case Celsius => "Celsius"
      case Fahrenheit => "Fahrenheit"
      case K => "K"
      case Percent => "Percent"
      case Hertz => "Hertz"
    }

    /** The member whose value is `s`, if there is one: `UnitOfMeasure(s)`. */
    static function FromWire(s: string): (r: Option<UnitOfMeasure>)
      ensures r.Some? ==> r.value.ToWire() == s
      ensures forall m: UnitOfMeasure :: m.ToWire() == s ==> r == Some(m)
    {
      match s
      case "Wh" => Some(UnitOfMeasure.Wh)
      case "kWh" => Some(UnitOfMeasure.Kwh)
      case "varh" => Some(UnitOfMeasure.Varh)
      case "kvarh" => Some(UnitOfMeasure.Kvarh)
      case "W" => Some(UnitOfMeasure.W)
      case "kW" => Some(UnitOfMeasure.Kw)
      case "VA" => Some(UnitOfMeasure.Va)
      case "kVA" => Some(UnitOfMeasure.Kva)
      case "var" => Some(UnitOfMeasure.Var)
      case "kvar" => Some(UnitOfMeasure.Kvar)
      case "A" => Some(UnitOfMeasure.A)
      case "V" => Some(UnitOfMeasure.V)
      case "Celsius" => Some(UnitOfMeasure.Celsius)
      case "Fahrenheit" => Some(UnitOfMeasure.Fahrenheit)
      case "K" => Some(UnitOfMeasure.K)
      case "Percent" => Some(UnitOfMeasure.Percent)
      case "Hertz" => Some(UnitOfMeasure.Hertz)
      case _ => None
    }
  }

  /** `UnlockStatus`, declared at ocpp/v16/enums.py:785-796. */
  datatype UnlockStatus =
    | Unlocked
    | UnlockFailed
    | NotSupported
  {
    /** The member's value, the string sent on the wire. */
    function ToWire(): string {
      match this
      case Unlocked => "Unlocked"
      case UnlockFailed => "UnlockFailed"
      case NotSupported => "NotSupported"
    }

    /** The member whose value is `s`, if there is one: `UnlockStatus(s)`. */
    static function FromWire(s: string): (r: Option<UnlockStatus>)
      ensures r.Some? ==> r.value.ToWire() == s
      ensures forall m: UnlockStatus :: m.ToWire() == s ==> r == Some(m)
    {
      match s
      case "Unlocked" => Some(UnlockStatus.Unlocked)
      case "UnlockFailed" => Some(UnlockStatus.UnlockFailed)
      case "NotSupported" => Some(UnlockStatus.NotSupported)
      case _ => None
    }

    /** The deprecated names the class also declares, each with its declared value. */
    static const Deprecated: seq<(string, string)> := [("unlockFailed", "UnlockFailed"), ("notSupported", "NotSupported")]

    /** Every deprecated name carries the value of a member, so it is an alias of that member. */
    static lemma DeprecatedNamesAreAliases()
      ensures forall alias, value :: (alias, value) in Deprecated ==> exists m: UnlockStatus :: m.ToWire() == value
    {
      assert UnlockStatus.UnlockFailed.ToWire() == "UnlockFailed";
      assert UnlockStatus.NotSupported.ToWire() == "NotSupported";
    }
  }

  /** `UpdateFirmwareStatus`, declared at ocpp/v16/enums.py:799-808. */
  datatype UpdateFirmwareStatus =
    | Accepted
    | Rejected
    | AcceptedCanceled
    | InvalidCertificate
    | RevokedCertificate
  {
    /** The member's value, the string sent on the wire. */
    function ToWire(): string {
      match this
      case Accepted => "Accepted"
      case Rejected => "Rejected"
      case AcceptedCanceled => "AcceptedCanceled"
      case InvalidCertificate => "InvalidCertificate"
      case RevokedCertificate => "RevokedCertificate"
    }

    /** The member whose value is `s`, if there is one: `UpdateFirmwareStatus(s)`. */
    static function FromWire(s: string): (r: Option<UpdateFirmwareStatus>)
      ensures r.Some? ==> r.value.ToWire() == s
      ensures forall m: UpdateFirmwareStatus :: m.ToWire() == s ==> r == Some(m)
    {
      match s
      case "Accepted" => Some(UpdateFirmwareStatus.Accepted)
      case "Rejected" => Some(UpdateFirmwareStatus.Rejected)
      case "AcceptedCanceled" => Some(UpdateFirmwareStatus.AcceptedCanceled)
      case "InvalidCertificate" => Some(UpdateFirmwareStatus.InvalidCertificate)
      case "RevokedCertificate" => Some(UpdateFirmwareStatus.RevokedCertificate)
      case _ => None
    }
  }

  /** `UploadLogStatus`, declared at ocpp/v16/enums.py:811-822. */
  datatype UploadLogStatus =
    | BadMessage
    | Idle
    | NotSupportedOperation
    | PermissionDenied
    | Uploaded
    | UploadFailure
    | Uploading
  {
    /** The member's value, the string sent on the wire. */
    function ToWire(): string {
      match this
      case BadMessage => "BadMessage"
      case Idle => "Idle"
      case NotSupportedOperation => "NotSupportedOperation"
      case PermissionDenied => "PermissionDenied"
      case Uploaded => "Uploaded"
      case UploadFailure => "UploadFailure"
      case Uploading => "Uploading"
    }

    /** The member whose value is `s`, if there is one: `UploadLogStatus(s)`. */
    static function FromWire(s: string): (r: Option<UploadLogStatus>)
      ensures r.Some? ==> r.value.ToWire() == s
      ensures forall m: UploadLogStatus :: m.ToWire() == s ==> r == Some(m)
    {
      match s
      case "BadMessage" => Some(UploadLogStatus.BadMessage)
      case "Idle" => Some(UploadLogStatus.Idle)
      case "NotSupportedOperation" => Some(UploadLogStatus.NotSupportedOperation)
      case "PermissionDenied" => Some(UploadLogStatus.PermissionDenied)
      case "Uploaded" => Some(UploadLogStatus.Uploaded)
      case "UploadFailure" => Some(UploadLogStatus.UploadFailure)
      case "Uploading" => Some(UploadLogStatus.Uploading)
      case _ => None
    }
  }

  /** `UpdateStatus`, declared at ocpp/v16/enums.py:825-837. */
  datatype UpdateStatus =
    | Accepted
    | Failed
    | NotSupported
    | VersionMismatch
  {
    /** The member's value, the string sent on the wire. */
    function ToWire(): string {
      match this
      case Accepted => "Accepted"
      case Failed => "Failed"
      case NotSupported => "NotSupported"
      case VersionMismatch => "VersionMismatch"
    }

    /** The member whose value is `s`, if there is one: `UpdateStatus(s)`. */
    static function FromWire(s: string): (r: Option<UpdateStatus>)
      ensures r.Some? ==> r.value.ToWire() == s
      ensures forall m: UpdateStatus :: m.ToWire() == s ==> r == Some(m)
    {
      match s
      case "Accepted" => Some(UpdateStatus.Accepted)
      case "Failed" => Some(UpdateStatus.Failed)
      case "NotSupported" => Some(UpdateStatus.NotSupported)
      case "VersionMismatch" => Some(UpdateStatus.VersionMismatch)
      case _ => None
    }

    /** The deprecated names the class also declares, each with its declared value. */
    static const Deprecated: seq<(string, string)> := [("notSupported", "NotSupported"), ("versionMismatch", "VersionMismatch")]

    /** Every deprecated name carries the value of a member, so it is an alias of that member. */
    static lemma DeprecatedNamesAreAliases()
      ensures forall alias, value :: (alias, value) in Deprecated ==> exists m: UpdateStatus :: m.ToWire() == value
    {
      assert UpdateStatus.NotSupported.ToWire() == "NotSupported";
      assert UpdateStatus.VersionMismatch.ToWire() == "VersionMismatch";
    }
  }

  /** `UpdateType`, declared at ocpp/v16/enums.py:840-846. */
  datatype UpdateType =
    | Differential
    | Full
  {
    /** The member's value, the string sent on the wire. */
    function ToWire(): string {
      match this
      case Differential => "Differential"
      case Full => "Full"
    }

    /** The member whose value is `s`, if there is one: `UpdateType(s)`. */
    static function FromWire(s: string): (r: Option<UpdateType>)
      ensures r.Some? ==> r.value.ToWire() == s
      ensures forall m: UpdateType :: m.ToWire() == s ==> r == Some(m)
    {
      match s
      case "Differential" => Some(UpdateType.Differential)
      case "Full" => Some(UpdateType.Full)
      case _ => None
    }
  }

  /** `ValueFormat`, declared at ocpp/v16/enums.py:849-859. */
  datatype ValueFormat =
    | Raw
    | SignedData
  {
    /** The member's value, the string sent on the wire. */
    function ToWire(): string {
      match this
      case Raw => "Raw"
      case SignedData => "SignedData"
    }

    /** The member whose value is `s`, if there is one: `ValueFormat(s)`. */
    static function FromWire(s: string): (r: Option<ValueFormat>)
      ensures r.Some? ==> r.value.ToWire() == s
      ensures forall m: ValueFormat :: m.ToWire() == s ==> r == Some(m)
    {
      match s
      case "Raw" => Some(ValueFormat.Raw)
      case "SignedData" => Some(ValueFormat.SignedData)
      case _ => None
    }

    /** The deprecated names the class also declares, each with its declared value. */
    static const Deprecated: seq<(string, string)> := [("signedData", "SignedData")]

    /** Every deprecated name carries the value of a member, so it is an alias of that member. */
    static lemma DeprecatedNamesAreAliases()
      ensures forall alias, value :: (alias, value) in Deprecated ==> exists m: ValueFormat :: m.ToWire() == value
    {
      assert ValueFormat.SignedData.ToWire() == "SignedData";
    }
  }
}

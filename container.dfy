/**
 * The container record the tracking provider returns and the proxy passes
 * through unchanged: the fields the lookup form and its result view read.
 * Optional fields are `Option`s; required fields are plain.
 */
module Container {
  import opened Wrappers

  /** `IsActual` is sent either as a boolean or as text. */
  datatype ActualFlag = Flag(b: bool) | FlagText(s: string)

  /** A timestamp-like string and whether it is an actual or an estimated date. */
  datatype DateField = DateField(Date: string, IsActual: ActualFlag)

  datatype ContainerInfo = ContainerInfo(
    Status: string,
    StatusId: int,
    ContainerNumber: string,
    Pol: Option<string>,
    Pod: Option<string>,
    Vessel: Option<string>,
    VesselVoyage: Option<string>,
    ArrivalDate: Option<DateField>,
    ETA: Option<string>,
    Co2Emission: Option<string>,
    LiveMapUrl: Option<string>
  )
}

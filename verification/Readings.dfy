/** One polling cycle's reading: the five-key record that both the periodic
    push and the on-demand query build, one key per sensor. Each sensor
    wrapper turns its driver's failure into a marker for its own key. */
module Readings {
  import opened Wrappers
  import LoadCell

  /** The class of exception a driver access raised: the DHT11 driver's
      `RuntimeError`, or anything else (a `NameError` when the driver object
      was never created, an I/O error, ...). */
  datatype Exception = RuntimeError(message: string) | OtherException(message: string)

  /** What one driver access did: it returned a value, or it raised. */
  datatype Outcome<+T> = Returned(value: T) | Raised(exception: Exception)

  /** The `temperature_humidity` entry: both driver values (each possibly
      `None`), or the error text of a failed read. */
  datatype Climate =
    | Climate(temperature: Option<int>, humidity: Option<int>)
    | ClimateError(error: string)

  /** The record with keys `temperature_humidity`, `distance`, `bees_alive`,
      `hive_open` and `weight`. Every value of this type has all five. */
  datatype SensorReading = SensorReading(
    temperatureHumidity: Climate,
    distance: Option<real>,
    beesAlive: Option<bool>,
    hiveOpen: Option<bool>,
    weight: Option<real>)

  /** What the drivers did during one cycle: the DHT11 temperature and
      humidity, the measured distance in centimetres, the sound and light
      pin levels, and the `hx.read()` result (`None` when it failed or
      raised, which `get_weight` treats alike). */
  datatype Probes = Probes(
    dht: Outcome<(Option<int>, Option<int>)>,
    echo: Outcome<real>,
    soundLevel: Outcome<int>,
    lightLevel: Outcome<int>,
    hxRead: Option<int>)

  /** The level `GPIO.HIGH` of a digital pin. */
  const High: int := 1

  // ---------------------------------------------------------------------
  // The sensor wrappers

  /** `temperature_humidity` as written: a `RuntimeError` becomes an error
      entry, but any other exception escapes to the caller. */
  function TemperatureHumidityAsWritten(dht: Outcome<(Option<int>, Option<int>)>): (r: Outcome<Climate>)
    ensures r.Raised? <==> dht.Raised? && dht.exception.OtherException?
    ensures r.Raised? ==> r.exception == dht.exception
    ensures dht.Raised? && dht.exception.RuntimeError? ==> r == Returned(ClimateError(dht.exception.message))
    ensures r.Returned? && dht.Returned? ==>
      r.value.Climate? && r.value.temperature == dht.value.0 && r.value.humidity == dht.value.1
  {
    match dht
    case Returned((t, h)) => Returned(Climate(t, h))
    case Raised(RuntimeError(m)) => Returned(ClimateError(m))
    case Raised(e) => Raised(e)
  }

  /** `temperature_humidity` catching every exception, as the other four
      wrappers do: a failed read always becomes an error entry. */
  function TemperatureHumidity(dht: Outcome<(Option<int>, Option<int>)>): (r: Climate)
    ensures r.ClimateError? <==> dht.Raised?
    ensures dht.Raised? ==> r.error == dht.exception.message
    ensures TemperatureHumidityAsWritten(dht).Returned? ==> r == TemperatureHumidityAsWritten(dht).value
  {
    match dht
    case Returned((t, h)) => Climate(t, h)
    case Raised(e) => ClimateError(e.message)
  }

  /** `get_distance`: the measured distance, or `None` when measuring raised. */
  function Distance(echo: Outcome<real>): (d: Option<real>)
    ensures d.None? <==> echo.Raised?
    ensures echo.Returned? ==> d == Some(echo.value)
  {
    match echo
    case Returned(cm) => Some(cm)
    case Raised(_) => None
  }

  /** `is_bee_alive`: bees are heard when the sound pin reads low; `None`
      when reading the pin raised. */
  function BeesAlive(sound: Outcome<int>): (alive: Option<bool>)
    ensures alive == Some(true) <==> sound == Returned(0)
    ensures alive.None? <==> sound.Raised?
  {
    match sound
    case Returned(level) => Some(level == 0)
    case Raised(_) => None
  }

  /** `is_hive_open`: the hive is open when the light pin reads high;
      `None` when reading the pin raised. */
  function HiveOpen(light: Outcome<int>): (open: Option<bool>)
    ensures open == Some(true) <==> light == Returned(High)
    ensures open.None? <==> light.Raised?
  {
    match light
    case Returned(level) => Some(level == High)
    case Raised(_) => None
  }

  // ---------------------------------------------------------------------
  // The aggregated reading

  /** The record as the source builds it: the entries are evaluated in key
      order, and an exception escaping `temperature_humidity` abandons the
      whole record before any other sensor is read. */
  function CollectAsWritten(p: Probes, zeroOffset: real, calibrationFactor: real): (r: Outcome<SensorReading>)
    requires calibrationFactor != 0.0
    ensures r.Raised? <==> p.dht.Raised? && p.dht.exception.OtherException?
  {
    match TemperatureHumidityAsWritten(p.dht)
    case Raised(e) => Raised(e)
    case Returned(climate) =>
      Returned(SensorReading(
        climate,
        Distance(p.echo),
        BeesAlive(p.soundLevel),
        HiveOpen(p.lightLevel),
        LoadCell.Weight(p.hxRead, zeroOffset, calibrationFactor)))
  }

  /** The record with every wrapper catching its own failures: it is always
      built, each key holding its sensor's value or failure marker. */
  function Collect(p: Probes, zeroOffset: real, calibrationFactor: real): (r: SensorReading)
    requires calibrationFactor != 0.0
    ensures r.temperatureHumidity.ClimateError? <==> p.dht.Raised?
    ensures r.distance.None? <==> p.echo.Raised?
    ensures r.beesAlive.None? <==> p.soundLevel.Raised?
    ensures r.hiveOpen.None? <==> p.lightLevel.Raised?
    ensures r.weight.None? <==> p.hxRead.None?
    ensures r.temperatureHumidity == TemperatureHumidity(p.dht)
    ensures r.distance == Distance(p.echo)
    ensures r.beesAlive == BeesAlive(p.soundLevel)
    ensures r.hiveOpen == HiveOpen(p.lightLevel)
    ensures r.weight == LoadCell.Weight(p.hxRead, zeroOffset, calibrationFactor)
  {
    SensorReading(
      TemperatureHumidity(p.dht),
      Distance(p.echo),
      BeesAlive(p.soundLevel),
      HiveOpen(p.lightLevel),
      LoadCell.Weight(p.hxRead, zeroOffset, calibrationFactor))
  }

  /** Where the source's record is built at all, it is the corrected one. */
  lemma CollectAgreesWithSource(p: Probes, zeroOffset: real, calibrationFactor: real)
    requires calibrationFactor != 0.0
    ensures CollectAsWritten(p, zeroOffset, calibrationFactor).Returned? ==>
      CollectAsWritten(p, zeroOffset, calibrationFactor).value == Collect(p, zeroOffset, calibrationFactor)
  {
  }

  /** A sensor that fails fills its own key with its failure marker and
      leaves the other four keys exactly as they would have been. */
  lemma FailureIsolated(p: Probes, e: Exception, zeroOffset: real, calibrationFactor: real)
    requires calibrationFactor != 0.0
    ensures Collect(p.(dht := Raised(e)), zeroOffset, calibrationFactor)
         == Collect(p, zeroOffset, calibrationFactor).(temperatureHumidity := ClimateError(e.message))
    ensures Collect(p.(echo := Raised(e)), zeroOffset, calibrationFactor)
         == Collect(p, zeroOffset, calibrationFactor).(distance := None)
    ensures Collect(p.(soundLevel := Raised(e)), zeroOffset, calibrationFactor)
         == Collect(p, zeroOffset, calibrationFactor).(beesAlive := None)
    ensures Collect(p.(lightLevel := Raised(e)), zeroOffset, calibrationFactor)
         == Collect(p, zeroOffset, calibrationFactor).(hiveOpen := None)
    ensures Collect(p.(hxRead := None), zeroOffset, calibrationFactor)
         == Collect(p, zeroOffset, calibrationFactor).(weight := None)
  {
  }

  /** When the DHT11 could not be created at start-up, `dht_device` is
      undefined and reading it raises a `NameError`, which the source's
      `temperature_humidity` does not catch: although every other sensor
      works, no record is produced for the cycle. */
  lemma DhtNameErrorAbortsCycle()
    ensures var p := Probes(
              Raised(OtherException("name 'dht_device' is not defined")),
              Returned(12.5), Returned(0), Returned(High), Some(5000));
            CollectAsWritten(p, 0.0, LoadCell.DefaultCalibrationFactor).Raised?
            && Collect(p, 0.0, LoadCell.DefaultCalibrationFactor).distance == Some(12.5)
            && Collect(p, 0.0, LoadCell.DefaultCalibrationFactor).weight.Some?
  {
  }
}

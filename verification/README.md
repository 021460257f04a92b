# Beehive monitor: load-cell weight path

This project is a Dafny model of the weight path of the beehive monitor
(`app.py`) and of the reading that the monitor publishes every cycle.

- **Taring.** `tare_scale` calls `hx.read()` ten times and keeps the reads
  that did not return `None`, in order. If any read succeeded, the
  module-level `zero_offset` becomes their mean. If every read failed, the
  function raises `ValueError`, catches it itself, and leaves `zero_offset`
  unchanged. The model is the class `LoadCell.Scale`. Its field
  `zeroOffset` is the global, and its constant `calibrationFactor` is
  102.372. `Scale.Tare` takes the stream of `hx.read()` results as a
  sequence of `Option<int>`.
- **Weight.** `get_weight` turns one raw read into kilograms:
  `(raw - zero_offset) / calibration_factor / 1000`. A failed read gives
  `None`. The model is the pure function `LoadCell.Weight` and the method
  `Scale.GetWeight`, which reads the scale's state and does not change it.
- **Published reading.** `send_data` and `get_data` build the same
  five-key record: `temperature_humidity`, `distance`, `bees_alive`,
  `hive_open` and `weight`. The model is the datatype
  `Readings.SensorReading`. Each sensor wrapper is a function from what
  its driver did to the value for its key.

Python floats are modelled as exact `real`s. Integer reads are unbounded
`int`s.

`tare_scale` takes a plain mean of at most ten reads, and the calibration
factor is the constant 102.372.

## Model

| member | source | states |
|---|---|---|
| `LoadCell.ValidReadings` | app.py:56-64 | The kept readings are the successful reads; their number is the number of reads minus the number of `None` reads (nothing is zero-filled). |
| `LoadCell.ValidReadingsAppend` | app.py:58-64 | Keeping readings distributes over consecutive runs of reads, so the readings are kept in read order. |
| `LoadCell.ValidReadingsMembership` | app.py:59-61 | A value is kept exactly when some read returned it. |
| `LoadCell.ValidReadingsEmpty` | app.py:67-71 | No reading is kept exactly when every read returned `None`, which is the case in which the tare raises. |
| `LoadCell.MeanBounds` | app.py:67-68 | The mean `sum/len` of the kept readings lies between their minimum and their maximum. |
| `LoadCell.MeanOfConstant` | app.py:68 | The mean of readings that are all `v` is `v`. |
| `LoadCell.Weight` | app.py:76-87 | The result is `None` exactly when the raw read is `None`; otherwise weight × 1000 × factor + offset gives back the raw count. |
| `LoadCell.WeightAtZeroOffset` | app.py:83-84 | A raw count equal to the zero offset weighs 0 kg. |
| `LoadCell.WeightMonotone` | app.py:83-84 | With a positive calibration factor (102.372 at app.py:46), a strictly larger raw count gives a strictly larger weight. |
| `LoadCell.TaredAtRestWeighsZero` | app.py:50-87 | If the tare's successful reads all return `v`, then reading `v` after the tare weighs 0 kg. |
| `LoadCell.Scale.constructor` | app.py:46-47 | At start-up the zero offset is 0, and the calibration factor is the constant 102.372. |
| `LoadCell.Scale.Tare` | app.py:50-73 | Uses exactly the first 10 results of the stream, however many fail (the new offset depends on `results[..10]` only). If any succeeded, the offset becomes the mean `Sum/len` (`LoadCell.Sum`, `LoadCell.Mean`, app.py:68) of the successful ones, which lies between their minimum and maximum. Otherwise the offset keeps its old value. The factor never changes. |
| `LoadCell.Scale.GetWeight` | app.py:76-87 | Returns the weight for the raw read under the current offset and factor (`None` exactly for a failed read), and changes no state. |
| `Readings.TemperatureHumidityAsWritten` | app.py:116-124 | A `RuntimeError` becomes an error entry carrying its message. Any other exception escapes unchanged (it is the driver's own exception). Otherwise both driver values are returned. |
| `Readings.TemperatureHumidity` | app.py:116-124 | Corrected wrapper: the entry is an error entry exactly when the driver raised. It carries the exception's message, and it agrees with the source wherever the source returns. |
| `Readings.Distance` | app.py:90-113 | The distance entry is `None` exactly when measuring raised; otherwise it is the measured distance. |
| `Readings.BeesAlive` | app.py:127-134 | Bees are reported alive exactly when the sound pin reads 0. The entry is `None` exactly when reading the pin raised. |
| `Readings.HiveOpen` | app.py:137-144 | The hive is reported open exactly when the light pin reads `GPIO.HIGH`. The entry is `None` exactly when reading the pin raised. |
| `Readings.CollectAsWritten` | app.py:149-155 | As written, among cycles whose distance measurement ends, no record is built exactly when the DHT11 read raises an exception other than `RuntimeError`. |
| `Readings.Collect` | app.py:172-178 | Corrected record, always built with all five keys. Each key holds its failure marker exactly when its own sensor failed, and otherwise holds that sensor's wrapper result; the `weight` key is `LoadCell.Weight` of the `hx.read()` result under the current offset and factor. |
| `Readings.CollectAgreesWithSource` | app.py:149-155 | Wherever the source builds its record, that record equals the corrected one. |
| `Readings.FailureIsolated` | app.py:172-178 | When one sensor fails, its key gets its marker and the other four keys are unchanged. |
| `Readings.DhtNameErrorAbortsCycle` | app.py:17-21 | Suppose the DHT11 object was never created and every other sensor works. As written, the cycle produces no record. The corrected record still carries the distance and the weight. |

## Findings

| source | as written | input that shows it | evidently intended | confidence | as-written member | corrected member |
|---|---|---|---|---|---|---|
| app.py:116-124 | `temperature_humidity` catches only `RuntimeError` | The DHT11 constructor fails at app.py:19. The error is logged and `dht_device` stays undefined. Reading it at app.py:118 then raises `NameError`, which escapes the dict literal at app.py:149-155. The push thread dies, and `/data` fails. | Like the four other wrappers, a failed DHT11 read yields a marker for its own key, and the other keys are still reported. | medium; not executed | `Readings.CollectAsWritten` (`Readings.DhtNameErrorAbortsCycle`) | `Readings.Collect` (`Readings.TemperatureHumidity`, `Readings.FailureIsolated`) |

## Left out

- `LoadCell.Scale.Tare`: an exception raised by `hx.reset()` or `hx.read()` itself (for example when the HX711 object was never created) is not modelled. In the source it is caught, and `zero_offset` keeps its old value, the same as when every read returns `None`.
- `LoadCell.Scale.Tare`: the read stream must hold at least ten entries. It stands for a driver that can always be read again.
- Hardware I/O is left out: GPIO setup and pin access, `hx.reset()`, and the DHT11 driver. The values they return are inputs to the model.
- The ultrasonic distance measurement is left out. It is busy-wait pulse timing on a pin, with wall-clock float arithmetic and `round`. The model takes the measured distance, or the exception, as input. The echo loops at app.py:99-100 and app.py:103-104 have no timeout. A measurement that never ends, which stops the whole cycle, is not modelled: the model's input is a distance or an exception.
- `time.sleep` settling delays and logging calls are left out. They do not change any state.
- The Flask route, `jsonify`, and the `requests.post` push loop with its status-code handling are left out. They are network plumbing around the record that the source builds, which `Readings.CollectAsWritten` models.
- The daemon thread, and process start-up and GPIO clean-up, are left out. These are concurrency and lifecycle.
- Floating-point rounding is left out. The sum, the mean and the conversion are exact over the reals.

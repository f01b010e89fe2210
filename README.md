# Angles, SINR sampling and trace configuration: a Dafny model

This project models three pieces of an ns-3 mmWave simulation set-up and
proves properties about them.

- **`Antenna`** (`antenna.dfy`) covers `src/antenna/model/angles.cc`. It has:
  - the degree/radian conversions, for one value and element by element over a vector;
  - the `Angles` direction value (azimuth `phi`, inclination `theta`) and its four constructors;
  - the in-place azimuth normalisation `NormalizeAngles`, built on C's `fmod`;
  - the stream operators `<<` and `>>`.
- **`SinrSampler`** (`sinr_sampler.dfy`) covers `scratch/qd-channel-bf-comparison-sinr.cc`. It has:
  - the SNR and SINR that `ComputeSinr` derives from summed power spectral densities;
  - the 5 ms sampling tick schedule in `main`;
  - the trace file `sinr-trace.txt`: truncated with a header, then one record appended per tick;
  - the codebook file name built from the antenna dimensions;
  - the three scenario names the program accepts.
- **`TraceConfig`** (`trace_config.dfy`) covers `scratch/ns2TraceInterface.cc`. It has:
  - the UE and eNB codebook `switch` tables;
  - the building-type and wall-type name chains, each with its default;
  - the bandwidth split between the two component carriers.
- **`Wrappers`** (`wrappers.dfy`) holds `Option`, for the cases where the program produces no usable value.

All arithmetic is over `real`:

- **M_PI** is `Antenna.Pi`, an arbitrary positive real.
- **C `fmod`** is `x - y * trunc(x / y)`, whose result takes the sign of the dividend.
- **Normalised azimuth range.** The code produces [-π, π): `NormalizeAngles` maps π to -π. See `Antenna.NormalizeRange` and `Antenna.NormalizeWrapsPi`.
- **Supplied functions.** The model takes these as parameters instead of defining them:
  - `atan2`, `acos` and `sqrt`, as a `MathLib` value;
  - the channel, as a function from time, transmit PSD, source, beam target and receiver to the received PSD;
  - `log10`;
  - the double-to-text conversion of `operator<<`.

## Model

| member | source | states |
|---|---|---|
| Antenna.DegreesToRadians | src/antenna/model/angles.cc:31-36 | degrees · π / 180 |
| Antenna.RadiansToDegrees | src/antenna/model/angles.cc:51-55 | radians · 180 / π |
| Antenna.RadiansToDegreesOfDegreesToRadians | src/antenna/model/angles.cc:31-36 | converting degrees to radians and back returns the original value |
| Antenna.DegreesToRadiansOfRadiansToDegrees | src/antenna/model/angles.cc:51-55 | converting radians to degrees and back returns the original value |
| Antenna.HalfTurn | src/antenna/model/angles.cc:31-36 | 180 degrees is π radians, and π radians is 180 degrees |
| Antenna.DegreesToRadiansSeq | src/antenna/model/angles.cc:38-49 | the vector overload returns as many values as it is given, each the scalar conversion of the input at the same index (empty gives empty) |
| Antenna.RadiansToDegreesSeq | src/antenna/model/angles.cc:57-67 | the same for radians to degrees |
| Antenna.FMod | src/antenna/model/angles.cc:115 | C fmod over the reals: x - y · trunc(x / y), truncating toward zero |
| Antenna.Normalize | src/antenna/model/angles.cc:115-123 | fmod(phi + π, 2π), then + π if the remainder is negative, else - π |
| Antenna.FModBounds | src/antenna/model/angles.cc:115 | for a positive divisor, fmod's result lies in [0, y) for a non-negative dividend and in (-y, 0] for a negative one |
| Antenna.NormalizeRange | src/antenna/model/angles.cc:113-124 | the normalised azimuth lies in [-π, π) for every input |
| Antenna.NormalizeFixesRange | src/antenna/model/angles.cc:113-124 | an azimuth already in [-π, π) is left unchanged |
| Antenna.NormalizeIdempotent | src/antenna/model/angles.cc:113-124 | normalising twice equals normalising once |
| Antenna.NormalizeTurns | src/antenna/model/angles.cc:115-123 | the normalised azimuth differs from the input by a whole number of turns 2π |
| Antenna.CongruentInRangeEqual | src/antenna/model/angles.cc:115-123 | two azimuths in [-π, π) that differ by whole turns are equal, so the range holds one representative per direction |
| Antenna.NormalizePeriodic | src/antenna/model/angles.cc:115-123 | adding whole turns to the input does not change the normalised azimuth |
| Antenna.NormalizeWrapsPi | src/antenna/model/angles.cc:115-123 | π is normalised to -π |
| Antenna.DistanceIsDisplacementLength | src/antenna/model/angles.cc:107-111 | the distance between v and o is the length of v - o, whatever sqrt computes |
| Antenna.Angles.Default | src/antenna/model/angles.cc:87-90 | the default direction is phi = 0, theta = π/2 |
| Antenna.Angles.constructor | src/antenna/model/angles.cc:93-98 | phi is the normalised p and lies in [-π, π); theta is t unchanged |
| Antenna.Angles.FromVector | src/antenna/model/angles.cc:101-105 | phi is the normalised atan2(y, x) and theta is acos(z / length); a zero-length vector is excluded |
| Antenna.Angles.FromVectors | src/antenna/model/angles.cc:107-111 | the fields are those of the direction of v - o |
| Antenna.Angles.NormalizeAngles | src/antenna/model/angles.cc:113-124 | in place: phi becomes Normalize(old phi), which lies in [-π, π), and theta is untouched |
| Antenna.Formatted | src/antenna/model/angles.cc:71 | "(" + phi text + ", " + theta text + ")" |
| Antenna.FormattedFields | src/antenna/model/angles.cc:69-73 | the text is "(" phi ", " theta ")"; both fields can be cut back out of it at known positions, and a comma follows phi |
| Antenna.WriteAngles | src/antenna/model/angles.cc:69-73 | operator<< appends exactly the formatted text to the stream |
| Antenna.ReadAngles | src/antenna/model/angles.cc:75-84 | on a good stream both fields are assigned exactly as read, phi is not normalised, and the failbit is set exactly when the separator is not ':' |
| SinrSampler.SnrRatio | scratch/qd-channel-bf-comparison-sinr.cc:77 | Sum(rx) / Sum(noise); None when the noise power is 0 |
| SinrSampler.SinrRatio | scratch/qd-channel-bf-comparison-sinr.cc:78 | Sum(rx) / (Sum(noise) + Sum(interf)); None when that denominator is 0 |
| SinrSampler.Decibels | scratch/qd-channel-bf-comparison-sinr.cc:77-78 | 10 · log10(ratio) for a positive finite ratio; None otherwise |
| SinrSampler.SumNonNegative | scratch/qd-channel-bf-comparison-sinr.cc:77-78 | the total power of non-negative bins is non-negative, and positive if any bin is |
| SinrSampler.RatioOrder | scratch/qd-channel-bf-comparison-sinr.cc:77-78 | adding a non-negative term to a positive denominator never raises the ratio, and leaves it equal exactly when the numerator or the term is 0 |
| SinrSampler.SinrRatioAtMostSnrRatio | scratch/qd-channel-bf-comparison-sinr.cc:77-78 | with positive noise power both ratios are defined; the SINR ratio is at most the SNR ratio, and for a positive signal they are equal exactly when the interference power is 0 |
| SinrSampler.SinrRatioNonIncreasing | scratch/qd-channel-bf-comparison-sinr.cc:78 | more interference power never raises the SINR ratio |
| SinrSampler.ExampleRatios | scratch/qd-channel-bf-comparison-sinr.cc:77-78 | signal 100, noise 1 and interference 9 give an SNR ratio of 100 and an SINR ratio of 10 |
| SinrSampler.DecibelsOrder | scratch/qd-channel-bf-comparison-sinr.cc:77-78 | for an increasing log10, 10·log10 keeps the order of positive ratios and equates only equal ratios |
| SinrSampler.SinrDbAtMostSnrDb | scratch/qd-channel-bf-comparison-sinr.cc:77-78 | for an increasing log10, SINR in dB is at most SNR in dB, with equality exactly when the interference power is 0 |
| SinrSampler.ReceivedPsds | scratch/qd-channel-bf-comparison-sinr.cc:55-75 | the serving eNB, beamed at the serving UE, and the interfering eNB, beamed at its own UE, each transmit txPsd, both received at the serving UE at the same time |
| SinrSampler.SampleAt | scratch/qd-channel-bf-comparison-sinr.cc:74-82 | the record of one tick: time in seconds, SNR in dB, SINR in dB |
| SinrSampler.ReceivedPsdsDifferOnlyInSource | scratch/qd-channel-bf-comparison-sinr.cc:74-75 | both received PSDs come from the same transmit PSD at the serving UE, so they coincide when the source and its beam coincide |
| SinrSampler.SampleAtOrdersLevels | scratch/qd-channel-bf-comparison-sinr.cc:74-82 | with positive signal and noise power, a record holds its time in seconds and finite SNR and SINR, with SINR at most SNR |
| SinrSampler.ComputeSinr | scratch/qd-channel-bf-comparison-sinr.cc:51-84 | appends exactly one record (time, SNR, SINR) to the trace file and leaves the earlier lines intact |
| SinrSampler.TraceFile.WriteHeader | scratch/qd-channel-bf-comparison-sinr.cc:300-304 | truncates the trace file, leaving just the header line `time[s] snr[dB] sinr[dB]` |
| SinrSampler.TraceFile.Append | scratch/qd-channel-bf-comparison-sinr.cc:80-83 | opening in append mode and writing keeps every earlier line and adds one |
| SinrSampler.Ticks | scratch/qd-channel-bf-comparison-sinr.cc:292-298 | the tick times 5000 i + 2500 µs for i below simTime / 5000 under truncating division |
| SinrSampler.ScheduleTicks | scratch/qd-channel-bf-comparison-sinr.cc:292-298 | the scheduling loop registers exactly the tick times of the run, in order |
| SinrSampler.TicksShape | scratch/qd-channel-bf-comparison-sinr.cc:292-298 | there are simTime / 5000 ticks (none for a negative time), tick i at 5000 i + 2500 microseconds |
| SinrSampler.TicksIncrease | scratch/qd-channel-bf-comparison-sinr.cc:293-298 | tick times are strictly increasing |
| SinrSampler.TicksPrecedeStop | scratch/qd-channel-bf-comparison-sinr.cc:293-306 | every tick lies strictly between 0 and simTime, before Simulator::Stop |
| SinrSampler.Run | scratch/qd-channel-bf-comparison-sinr.cc:292-307 | after the run the trace file is the header followed by exactly one record per tick, in tick order |
| SinrSampler.DecimalString | scratch/qd-channel-bf-comparison-sinr.cc:214-218 | std::to_string of a non-negative integer: at least one character, all decimal digits |
| SinrSampler.CodebookFilename | scratch/qd-channel-bf-comparison-sinr.cc:213-218 | path + to_string(rows) + "x" + to_string(columns) + ".txt" |
| SinrSampler.DecimalStringRoundTrip | scratch/qd-channel-bf-comparison-sinr.cc:213-218 | std::to_string's digits read back as the number |
| SinrSampler.SplitAtFirstX | scratch/qd-channel-bf-comparison-sinr.cc:213-218 | a digit string followed by "x" can be split back at the first 'x' |
| SinrSampler.CodebookFilenameInjective | scratch/qd-channel-bf-comparison-sinr.cc:213-218 | the codebook file name determines the rows and the columns, for the UE and the eNB alike |
| SinrSampler.ScenarioPlacement | scratch/qd-channel-bf-comparison-sinr.cc:149-173 | the four initial positions of each accepted scenario; None (the fatal error) for any other name |
| SinrSampler.ScenarioOrientation | scratch/qd-channel-bf-comparison-sinr.cc:250-280 | bearings -76.2107° and 105.826° for both parking lots, -90° and 0° for L-Room, downtilt 12° throughout; None for any other name |
| SinrSampler.ScenarioChecksAgree | scratch/qd-channel-bf-comparison-sinr.cc:149-173 | only "ParkingLot-old", "ParkingLotCars" and "L-Room" pass the mobility check, and the orientation check (250-280) accepts the same names, so its fatal error is never reached |
| TraceConfig.UeCodebook | scratch/ns2TraceInterface.cc:192-253 | the twelve cases as a table of (path, rows, columns); None for any other code |
| TraceConfig.EnbCodebook | scratch/ns2TraceInterface.cc:260-321 | the eNB switch's twelve cases, written out on their own; None for any other code |
| TraceConfig.UeCodebookDigits | scratch/ns2TraceInterface.cc:192-253 | a codebook is selected exactly for the codes {11,12,14,18,21,22,41,44,48,81,84,88}, with rows = code / 10 and columns = code % 10 |
| TraceConfig.UeCodebookRoundTrip | scratch/ns2TraceInterface.cc:192-253 | 10 * rows + columns gives back the code |
| TraceConfig.UeCodebookPath | scratch/ns2TraceInterface.cc:194-251 | each selected path is "src/mmwave/model/Codebooks/" + rows + "x" + columns + ".txt", with rows and columns between 1 and 8 |
| TraceConfig.UeCodebookPathsDistinct | scratch/ns2TraceInterface.cc:192-253 | different accepted codes select different codebook files |
| TraceConfig.EnbCodebookIsUeCodebook | scratch/ns2TraceInterface.cc:260-321 | the eNB table equals the UE table, unaccepted codes included |
| TraceConfig.ParseBuildingType | scratch/ns2TraceInterface.cc:149-157 | "Building::Office" and "Building::Commercial" select their types; every other name gives Residential |
| TraceConfig.ParseBuildingTypeName | scratch/ns2TraceInterface.cc:149-157 | every building type is selected by its own name |
| TraceConfig.ParseWallType | scratch/ns2TraceInterface.cc:158-168 | "Building::Wood", "Building::ConcreteWithoutWindows" and "Building::StoneBlocks" select their types; every other name gives ConcreteWithWindows |
| TraceConfig.ParseWallTypeName | scratch/ns2TraceInterface.cc:158-168 | every wall type is selected by its own name |
| TraceConfig.Cc0Bandwidth | scratch/ns2TraceInterface.cc:325 | (1 - 1/bandDiv) in wrapping unsigned 32-bit arithmetic, times the total |
| TraceConfig.Cc1Bandwidth | scratch/ns2TraceInterface.cc:339 | carrier 1's bandwidth times bandDiv is the total |
| TraceConfig.Cc0BandwidthAllOrNothing | scratch/ns2TraceInterface.cc:325 | with unsigned integer division, carrier 0 gets the whole total for bandDiv ≥ 2 and nothing for bandDiv = 1 |
| TraceConfig.CarriersExceedTotal | scratch/ns2TraceInterface.cc:325-339 | as written, the two carriers together get more than the total for every bandDiv ≥ 2 and positive total |
| TraceConfig.DefaultCarriers | scratch/ns2TraceInterface.cc:80-82 | with the defaults bandDiv = 2 and 800 MHz, carrier 0 gets 800 MHz and carrier 1 gets 400 MHz |
| TraceConfig.IntendedCc0Bandwidth | scratch/ns2TraceInterface.cc:325 | the corrected carrier 0 bandwidth (1 - 1/bandDiv) · total in real arithmetic |
| TraceConfig.IntendedCarriersCoverTotal | scratch/ns2TraceInterface.cc:325-339 | the corrected split gives the carriers non-negative shares that add up to exactly the total |

## Left out

- Floating-point rounding is not modelled. Doubles are reals, so the conversion round trips hold exactly, which IEEE arithmetic does not guarantee.
- The digits of M_PI are not modelled. Only its positivity is used.
- atan2, acos and sqrt are not defined here. `Vector::GetLength` and `CalculateDistance` are ns-3's `vector.cc`, which is not part of this model. They are defined here as sqrt of the sum of squares, with sqrt supplied by the caller.
- Antenna.Angles.FromVector: a zero-length vector is a precondition. The program would divide by zero and pass a NaN to acos.
- Antenna.Angles.FromVectors: coincident points are a precondition, for the same reason.
- Antenna.WriteAngles: the double-to-text conversion is the caller-supplied `show`.
- Antenna.ReadAngles: works on the tokens already extracted (a number, one character, a number). Text-to-double conversion is not modelled, and neither is a number that fails to parse part way through.
- ns-3 itself:
  - DynamicCast, ConfigureBeamforming and CalcRxPowerSpectralDensity become the supplied channel function. Its beam-target argument stands for the beam configured just before.
  - The mobility models are positions only.
  - Simulator::Schedule, Run, Stop and Now are not called. `SinrSampler.Run` runs the registered ticks in time order, and each only if it falls before the stop time, which is what the event scheduler does.
- The PSD construction (CreateTxPowerSpectralDensity, CreateNoisePowerSpectralDensity) is not modelled. The transmit and noise PSDs are parameters.
- SinrSampler.Decibels: None stands for every non-finite result (a zero denominator, a zero or negative ratio). The model does not tell -inf, +inf and NaN apart.
- SinrSampler.Run: the file opens and closes are not modelled. The file is the sequence of lines written to it. Numbers are not formatted as text.
- SinrSampler.ScheduleTicks: the 32-bit `auto i` loop counter is unbounded here. Its overflow would need a run longer than about 10^7 seconds.
- The rest of `main` in both scratch programs is not modelled:
  - command-line and JSON configuration parsing;
  - topology, EPC, IP routing and applications;
  - MmWaveHelper attribute calls;
  - the progress, legend and flow-monitor files;
  - rntiLog and timeNow.
- The building boxes built from the JSON configuration are not modelled; only the type and wall mappings are.
- `useCa` is a constant true, so carrier 1 is always configured. The model has no switch for it.
- TraceConfig.Cc0Bandwidth and TraceConfig.Cc1Bandwidth: bandDiv = 0 is a precondition. The program would divide by zero.
- TraceConfig.UeCodebook and TraceConfig.EnbCodebook: an unaccepted code leaves the path empty and the rows and columns uninitialised in the program (they are read at scratch/ns2TraceInterface.cc:393-401). Here the whole selection is None.
- `src/mmwave/helper/envVarTaskID.cc` is not modelled. It only wraps `getenv`.

## Findings

| source | as written | input that shows it | evidently intended | confidence | as-written member | corrected member |
|---|---|---|---|---|---|---|
| scratch/ns2TraceInterface.cc:325 | `(1-1/(bandDiv))*totalBandwidth` divides in unsigned integers, so `1/bandDiv` is 0 for every bandDiv ≥ 2 and carrier 0 gets the whole total | bandDiv = 2, totalBandwidth = 800e6: carrier 0 gets 800 MHz and carrier 1 gets 400 MHz, 1.2 GHz in all | carrier 0 gets total · (1 - 1/bandDiv), so that it and carrier 1 (`totalBandwidth * 1/ bandDiv`, line 339) share the total | not executed | TraceConfig.CarriersExceedTotal | TraceConfig.IntendedCarriersCoverTotal |

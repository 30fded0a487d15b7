/**
 * The safe-operating envelope of the one drone the advisor knows, the DJI Mini 2
 * (`config.limits` in app.js).
 */
module Limits {

  /** Thresholds: speeds in km/h, temperatures in degrees C, probabilities and cover in
      percent, visibility in km, the geomagnetic index on the Kp scale. */
  datatype Profile = Profile(
    wind: int,
    gusts: int,
    tempMin: int,
    tempMax: int,
    rain: int,
    clouds: int,
    visibility: int,
    kpIndex: int)

  const DjiMini2: Profile := Profile(29, 38, 0, 40, 20, 70, 3, 4)

  /** A profile is usable when its temperature range is not empty and every other
      threshold is positive. */
  predicate WellFormed(p: Profile) {
    && p.tempMin < p.tempMax
    && p.wind > 0 && p.gusts > 0 && p.rain > 0 && p.clouds > 0
    && p.visibility > 0 && p.kpIndex > 0
  }

  lemma DjiMini2IsWellFormed()
    ensures WellFormed(DjiMini2)
    ensures DjiMini2.gusts > DjiMini2.wind
  {
  }
}

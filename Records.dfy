/** The rows the scorers read (src/core/schemas.py names their fields):
    every optional column is a `Slot`, because the code tells a missing
    key, a key holding None and a present value apart. */
module Records {
  import opened Common

  /** One hourly forecast row.  `timestamp` is `timestamp_utc` in
      microseconds since 1970-01-01T00:00:00Z; the other fields are the
      `*_sg` columns and the `tide_type` key. */
  datatype Forecast = Forecast(
    timestamp: int,
    waveHeight: Slot<real>,               // wave_height_sg
    waveDirection: Slot<real>,            // wave_direction_sg
    wavePeriod: Slot<real>,               // wave_period_sg
    secondarySwellHeight: Slot<real>,     // secondary_swell_height_sg
    secondarySwellDirection: Slot<real>,  // secondary_swell_direction_sg
    secondarySwellPeriod: Slot<real>,     // secondary_swell_period_sg
    swellHeight: Slot<real>,              // swell_height_sg
    swellDirection: Slot<real>,           // swell_direction_sg
    swellPeriod: Slot<real>,              // swell_period_sg
    windSpeed: Slot<real>,                // wind_speed_sg
    windDirection: Slot<real>,            // wind_direction_sg
    seaLevel: Slot<real>,                 // sea_level_sg
    waterTemperature: Slot<real>,         // water_temperature_sg
    airTemperature: Slot<real>,           // air_temperature_sg
    currentSpeed: Slot<real>,             // current_speed_sg
    tideType: Slot<string>)               // tide_type

  /** A surf-preference row (user, model or level defaults). */
  datatype Preferences = Preferences(
    minWaveHeight: Slot<real>,
    idealWaveHeight: Slot<real>,
    maxWaveHeight: Slot<real>,
    idealWaveDirection: Slot<real>,
    idealWavePeriod: Slot<real>,
    idealWindDirection: Slot<real>,
    idealWindSpeed: Slot<real>,
    maxWindSpeed: Slot<real>,
    idealTideHeight: Slot<real>,
    idealTideType: Slot<string>,
    idealWaterTemperature: Slot<real>,
    idealAirTemperature: Slot<real>,
    idealCurrentSpeed: Slot<real>,
    idealSwellHeight: Slot<real>,
    maxSwellHeight: Slot<real>,
    userId: Slot<string>,
    spotId: Slot<int>,
    preferenceId: Slot<int>,
    isActive: Slot<bool>)

  /** A surf spot row: `spotName` is its `spot_name` column; `name` is a
      `name` key, which the rows of `get_spot_by_id` do not have. */
  datatype Spot = Spot(
    spotId: int,
    spotName: string,
    name: Option<string>,
    idealSwellDirection: Slot<seq<real>>,
    idealWindDirection: Slot<seq<real>>,
    idealSeaLevel: Slot<real>,
    idealTideFlow: Slot<seq<string>>)

  /** A user profile row; only the surf level is read by the scorers. */
  datatype Profile = Profile(surfLevel: Slot<string>)
}

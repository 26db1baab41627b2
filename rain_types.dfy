/** The records of src/types/rain.ts. */
module RainTypes {
  /** One rain-gauge reading as the upstream API delivers it. */
  datatype RainStation = RainStation(
    stationNo: string,
    stationName: string,
    recTime: string,
    rain: real)

  /** The three font-size preferences. */
  datatype FontSize = Small | Medium | Large
}

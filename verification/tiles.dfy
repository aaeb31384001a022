/** The shared application record (`TilesState`): the notepad text and the
    inspiration generator's fields, all strings except the computed tones. */
module Tiles {
  datatype TilesState = TilesState(
    notes: string,
    rootEl: string,
    scaleEl: string,
    tonesEl: string,
    tonesArrEl: seq<string>,
    bpmEl: string,
    soundEl: string)
}

/** A JSON value. The history store keeps `results` as it was posted (it
    does not drop empty objects the way Mongoose's `minimize` does on save)
    and the keyword extractor walks what `json.loads` produced; neither
    interprets numbers, so a number is kept as an integer. */
module Json {

  datatype Json =
    | JNull
    | JBool(b: bool)
    | JNum(n: int)
    | JStr(s: string)
    | JArr(items: seq<Json>)
    | JObj(members: seq<(string, Json)>)
}

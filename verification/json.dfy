/** The values `json.loads` produces and that the client library keeps in a
    message's additional fields. */
module Json {

  datatype JVal =
    | JNull
    | JBool(b: bool)
    | JNum(n: int)
    | JStr(s: string)
    | JArr(items: seq<JVal>)
    | JObj(fields: map<string, JVal>)
}

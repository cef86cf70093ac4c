/** The HTTP replies the handlers produce: a status code and the JSON body,
    one constructor per body shape the server sends. */
module Http {
  import opened JsValues
  import opened Tokens
  import opened Farmers

  datatype Body =
    | Error(error: string)                                          // { error }
    | ErrorWithFarmer(error: string, farmer: PublicFarmer)          // { error, farmer }
    | Message(message: string)                                      // { message }
    | LoginSuccess(message: string, token: Claims, farmer: PublicFarmer)  // { message, token, farmer }
    | FarmerReadings(farmer: PublicFarmer, sensorData: map<string, JsValue>)  // { farmer, sensorData }

  datatype Reply = Reply(status: nat, body: Body)

  /** The reply of every `catch (err)` in the handlers. */
  const SERVER_ERROR: Reply := Reply(500, Error("Server error"))
}

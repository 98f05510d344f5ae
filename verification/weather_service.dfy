/**
 The outside weather service as the handlers see it: a query goes out, and either a
 JSON payload carrying a `cod` comes back, or the request fails.
 */
module WeatherService {

  import opened JsValues

  /** The `cod` member of a payload: a number, a string, or absent. */
  datatype Cod = NumberCod(n: int) | TextCod(t: string) | NoCod

  /** A decoded response body; everything but `cod` is kept as opaque text. */
  datatype Payload = Payload(cod: Cod, body: string)

  /** `payload.cod === 200`: strict equality, so the string "200" does not pass. */
  predicate Accepted(p: Payload) {
    p.cod == NumberCod(200)
  }

  /** The query a handler sends: by coordinates or by place name, in metric units or not. */
  datatype Query =
    | ByCoords(lat: Num, lon: Num, metric: bool)
    | ByName(name: string, metric: bool)

  /**
   What the HTTP call yields: a 2xx body, an error response carrying the upstream's
   `cod` and `message`, or a failure with no response at all (timeout, DNS, refused).
   */
  datatype Reply =
    | Ok(payload: Payload)
    | Rejected(code: int, message: string)
    | Unreachable

  /** The weather service at the moment a request is handled. */
  type Service = Query -> Reply
}

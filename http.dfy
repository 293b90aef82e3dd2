/** What an Express handler sends back, reduced to what the handlers decide:
    the status code and the body together with the content type it goes out as. */
module Http {
  import opened Optional

  /** `res.send(string)` goes out as text, `res.type('application/xml')`
      followed by `res.send` as XML, and `res.json({ field: value })` as a
      one-field JSON object. */
  datatype Body = Text(text: string) | Xml(xml: string) | JsonField(field: string, value: string)

  datatype Response = Response(status: nat, body: Body)

  /** `response.ok` of the Fetch API: the status is in the range 200-299. */
  predicate IsOk(status: nat) {
    200 <= status <= 299
  }

  /** JavaScript truthiness of a string-valued input: `undefined` and the
      empty string are falsy, every other string is truthy. */
  predicate Truthy(s: Option<string>) {
    s.Some? && s.value != ""
  }
}

/**
 * How the pages talk to the backend, reduced to what their logic depends on: which request was
 * issued, what it carried, and whether it was answered or failed with an error body.
 */
module Requests {

  import opened Wrappers

  /** A file the user selected in a file input (a truthy `File` object). */
  datatype Photo = Photo(fileName: string)

  /** A value sent under one key: text, or a file part of a multipart body. */
  datatype Value = TextValue(text: string) | File(photo: Photo)

  /** A `FormData` body, whose parts keep the order in which they were appended. */
  type Part = (string, Value)

  /** A browser `FormData` object, which `append` extends in place. */
  class FormData {
    var parts: seq<Part>

    constructor ()
      ensures parts == []
    {
      parts := [];
    }

    method Append(key: string, value: Value)
      modifies this
      ensures parts == old(parts) + [(key, value)]
    {
      parts := parts + [(key, value)];
    }
  }

  datatype Body =
    | NoBody
    | Multipart(parts: seq<Part>)
    | Json(object: map<string, string>)

  datatype Verb = Get | Post | Put

  datatype Request = Request(verb: Verb, path: string, body: Body)

  /** The body of an error response as far as the pages read it: `data.error` and `data.message`,
      each possibly absent. */
  datatype ErrorBody = ErrorBody(error: Option<string>, message: Option<string>)

  /** What a failed request throws: with the server's response, or without one (network failure). */
  datatype ServerError = ServerError(response: Option<ErrorBody>)

  /** How a request the page issued came back. */
  datatype Reply = Accepted | Rejected(failure: ServerError)

  /** A string in a JavaScript boolean context: present and non-empty. */
  predicate Truthy(o: Option<string>) {
    o.Some? && o.value != ""
  }

  /** A form field filled from the server value `o` by `o || ""`: the value itself when it is
      truthy, otherwise the empty string. */
  predicate FilledFrom(field: string, o: Option<string>) {
    if Truthy(o) then field == o.value else field == ""
  }

  /** `o || ""`: an absent or empty server field becomes the empty string. */
  function OrEmpty(o: Option<string>): (r: string)
    ensures FilledFrom(r, o)
  {
    if o.Some? then o.value else ""
  }

  /** `err.response?.data?.error || err.response?.data?.message || fallback`. */
  function ErrorText(e: ServerError, fallback: string): (r: string)
    ensures e.response.Some? && Truthy(e.response.value.error) ==> r == e.response.value.error.value
    ensures e.response.Some? && !Truthy(e.response.value.error) && Truthy(e.response.value.message)
      ==> r == e.response.value.message.value
    ensures e.response.None? || (!Truthy(e.response.value.error) && !Truthy(e.response.value.message))
      ==> r == fallback
  {
    match e.response
    case None => fallback
    case Some(body) =>
      if Truthy(body.error) then body.error.value
      else if Truthy(body.message) then body.message.value
      else fallback
  }

  /** The text shown after a failure is never empty when the fallback is not. */
  lemma ErrorTextNeverEmpty(e: ServerError, fallback: string)
    requires fallback != ""
    ensures ErrorText(e, fallback) != ""
  {
  }

  /** The keys of a multipart body, in order. */
  function Keys(parts: seq<Part>): (ks: seq<string>)
    ensures |ks| == |parts|
    ensures forall i | 0 <= i < |parts| :: ks[i] == parts[i].0
  {
    if parts == [] then [] else [parts[0].0] + Keys(parts[1..])
  }

  /** The keys of a concatenation are the keys of each part in turn (pointwise, from the contract
      of `Keys`). */
  lemma KeysConcat(a: seq<Part>, b: seq<Part>)
    ensures Keys(a + b) == Keys(a) + Keys(b)
  {
  }
}

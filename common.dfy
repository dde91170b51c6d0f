/**
 * Values shared by the generation pipeline and the billing flows: bytes,
 * the usual Option and Result wrappers, and the external calls the service
 * makes, recorded as a trace so that contracts can say which collaborator was
 * asked what, and in which order.
 */
module Common {

  newtype byte = x: int | 0 <= x < 256

  datatype Option<+T> = None | Some(value: T)

  /** An operation that either answers or raises an exception that propagates. */
  datatype Result<+T, +E> = Ok(value: T) | Err(error: E)

  /** The two image models, in the order the service tries them. */
  datatype ImageModel = DallE3 | DallE2

  /** The identifier the image API is given for each model. */
  function ModelName(m: ImageModel): string {
    match m
    case DallE3 => "dall-e-3"
    case DallE2 => "dall-e-2"
  }

  /** One request to a foreign service, with the argument that matters. */
  datatype ExternalCall =
    | GenerateContent(fullPrompt: string)                 // text model
    | GenerateImages(model: ImageModel, prompt: string)   // image API
    | FetchUrl(url: string)                               // download of a result
    | CreateCustomer(email: string)                       // billing provider
    | RetrieveCustomer(customerId: string)
    | CreateCheckoutSession(customerId: string)

  /** The image models asked, in order, in a trace. */
  function ImageAttempts(calls: seq<ExternalCall>): (models: seq<ImageModel>)
    ensures |models| <= |calls|
  {
    if calls == [] then []
    else
      (if calls[0].GenerateImages? then [calls[0].model] else [])
      + ImageAttempts(calls[1..])
  }

  /** How many billing customers a trace creates. */
  function CustomersCreated(calls: seq<ExternalCall>): (n: nat)
    ensures n <= |calls|
  {
    if calls == [] then 0
    else (if calls[0].CreateCustomer? then 1 else 0) + CustomersCreated(calls[1..])
  }

  lemma {:induction false} ImageAttemptsAppend(a: seq<ExternalCall>, b: seq<ExternalCall>)
    ensures ImageAttempts(a + b) == ImageAttempts(a) + ImageAttempts(b)
  {
    if a == [] {
      assert a + b == b;
    } else {
      var head := if a[0].GenerateImages? then [a[0].model] else [];
      assert (a + b)[0] == a[0];
      assert (a + b)[1..] == a[1..] + b;
      ImageAttemptsAppend(a[1..], b);
      calc {
        ImageAttempts(a + b);
        head + ImageAttempts(a[1..] + b);
        head + (ImageAttempts(a[1..]) + ImageAttempts(b));
        (head + ImageAttempts(a[1..])) + ImageAttempts(b);
      }
    }
  }

  lemma {:induction false} CustomersCreatedAppend(a: seq<ExternalCall>, b: seq<ExternalCall>)
    ensures CustomersCreated(a + b) == CustomersCreated(a) + CustomersCreated(b)
  {
    if a == [] {
      assert a + b == b;
    } else {
      assert (a + b)[1..] == a[1..] + b;
      CustomersCreatedAppend(a[1..], b);
    }
  }
}

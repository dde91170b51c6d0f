# Image generation service with billing-gated entitlement: a Dafny model

This project models the decision logic of a small Flask service (`app.py`).
A logged-in user sends a text prompt. The service rewrites it through a text
model (Gemini). It sends the result to an image API: `dall-e-3` first, with
one fallback to `dall-e-2`. It downloads the first result into the static
directory under a random `<uuid>.png` name and answers with its `/static/` URL.
A separate billing flow runs beside this. It creates a Stripe customer for a
user only when the user's row holds no customer id, and opens a checkout for
it. A signed `checkout.session.completed` webhook then sets that user's
`subscribed` flag.

Every foreign service is a parameter of the model. These are the text model,
the image API, the download of a result URL, the billing provider's customer,
checkout and signature calls, and `uuid.uuid4()`. Each appears as a function
from the request it receives to the answer it gives, or to the exception it
raises. The traces of `ExternalCall`s record which service was asked what, and
in which order.

Modules:

- `Common` (common.dfy): bytes, `Option`/`Result`, the two image models, the
  external-call trace.
- `Enhancer` (enhancer.dfy): `enhance_prompt_with_gemini`. It models Python's
  `str.strip()` over exactly the characters `str.isspace()` accepts, and the
  997 + `"..."` cap.
- `ImageGen` (imagegen.dfy): `generate_image_with_openai`. `Generate` is a
  function of the services' answers. `GenerateWithOpenAI` is the step-by-step
  method, proved against it. It writes into an `AssetStore` object that stands
  for the static directory.
- `Api` (api.dfy): the `/api/generate-image` route. It covers prompt validation,
  composition and the mapping of outcomes to responses.
- `Billing` (billing.dfy): the `User` row and the user table as a class whose
  methods update it in place (`subscribe`, `webhook_received`,
  `check_subscription`). Each is proved against a function of the old table.
  Lemmas relate several requests.

Behaviours of the code that the model keeps as written:

- The text is capped at 1000 characters only when the text model answered.
  When it raises, the original prompt comes back unchanged, however long
  (`Enhancer.FailureKeepsLongPrompt`).
- When both image models raise, there is no "no image" outcome. The exception
  propagates out of the route, and Flask answers 500 (`Api.Respond`,
  `InternalError`). Only a download that raises does the same.
  `requests.get` does not raise on an HTTP error status, so an error page's
  body is saved as `<uuid>.png` and answered 200 (`Fetched` carries any bytes).
- The fallback is fixed: two models, each asked at most once. An empty reply
  from the first model is not retried on the second.
- The generation route does not check `subscribed`. Only the login is
  required, and the model does not add a check.
- `if not user.stripe_customer_id` treats an empty string like NULL, so a row
  holding `""` gets a new customer.
- A completed checkout whose session has no `customer` is looked up with
  `stripe_customer_id IS NULL`. That subscribes the first row (in table order)
  that has no customer id at all. The model states this case explicitly
  (`Billing.NullCustomerSubscribesFirstRowWithoutId`) rather than hiding it.
- A verified `checkout.session.completed` event without `data.object` fails
  on the attribute access and is answered 500, with the table unchanged
  (`Billing.WebhookDelivery`, `WebhookCrashed`).

## Model

| member | source | states |
|---|---|---|
| `Enhancer.FullPrompt` | app.py:68-76 | definition: the text model receives the fixed instruction followed by the user's prompt unchanged |
| `Enhancer.TrimStart` | app.py:80 | the result is a suffix of the input; everything dropped is whitespace; the result does not start with whitespace |
| `Enhancer.TrimEnd` | app.py:80 | the result is a prefix of the input; everything dropped is whitespace; the result does not end with whitespace |
| `Enhancer.Strip` | app.py:80 | `str.strip()`: the result is a slice of the input with only whitespace around it, and it neither starts nor ends with whitespace |
| `Enhancer.StripKeepsTrimmed` | app.py:80 | text without surrounding whitespace strips to itself |
| `Enhancer.StripIdempotent` | app.py:80 | stripping twice equals stripping once |
| `Enhancer.StripAllSpace` | app.py:80 | all-whitespace text strips to the empty string |
| `Enhancer.Truncate` | app.py:81 | the result has at most 1000 characters; text of at most 1000 is kept; longer text becomes its first 997 characters plus `"..."`, exactly 1000 |
| `Enhancer.Enhance` | app.py:66-84 | if the model raises, the result is the original prompt; otherwise it is the stripped text, of at most 1000 characters, cut to 997 plus `"..."` when longer |
| `Enhancer.FailureKeepsLongPrompt` | app.py:82-84 | when the model fails, a prompt longer than 1000 characters comes back longer than 1000 characters |
| `Enhancer.BlankAnswerGivesEmptyPrompt` | app.py:80-81 | a whitespace-only model answer turns a non-empty prompt into the empty string |
| `ImageGen.FileNameFor` | app.py:113 | definition: the file name is the uuid followed by `.png` |
| `ImageGen.Generate` | app.py:86-115 | dall-e-3 is asked first; dall-e-2 is asked exactly when dall-e-3 raised; neither is asked twice, and both get the same prompt. Both raising is the propagated failure. An empty reply is a text outcome naming the model that answered, with no download and no file. An image outcome is exactly a written file named `<uuid>.png` holding the bytes downloaded from the first result URL, and a non-empty reply whose first URL downloads always gives that image outcome. The trace holds these image requests and at most one download, and no other call |
| `ImageGen.AssetStore.Save` | app.py:61-64 | writing a file replaces the entry under that name and leaves every other file alone |
| `ImageGen.GenerateWithOpenAI` | app.py:86-115 | the try/except fallback, the empty-data check, the download and the write make the calls, give the result and leave the directory that `Generate` describes |
| `ImageGen.FallbackResultIsStored` | app.py:97-115 | when dall-e-3 raises and dall-e-2 returns a result, dall-e-2's downloaded bytes are stored and returned as the image, after exactly the attempts dall-e-3, dall-e-2 |
| `ImageGen.FreshNameKeepsAssets` | app.py:113-114 | under a name not yet used, a generation adds at most one file and keeps every earlier file unchanged |
| `Api.Respond` | app.py:166-169 | an image outcome maps to `/static/` followed by its file name; a text outcome maps to a 400 carrying its message; a propagated exception maps to a 500; each holds in both directions, and the status codes are 200, 400 and 500 accordingly |
| `Api.HandleGenerate` | app.py:157-169 | a missing or empty prompt gives 400 "Prompt is required" with no external call and no file, and only such a prompt does. Otherwise the text model is asked first and the image API gets the enhanced prompt. A 200 always names the file that was written |
| `Api.GenerateImageEndpoint` | app.py:157-169 | the route body returns the response and calls that `HandleGenerate` describes, and changes the static directory only by its saved file |
| `Api.BlankAnswerReachesImageApi` | app.py:162-165 | the prompt check runs only before enhancement: a whitespace-only model answer sends the empty string to dall-e-3 |
| `Api.HappyPath` | app.py:160-167 | when dall-e-3 answers and the download succeeds, the response is `/static/<uuid>.png`; the image API was given the enhanced prompt, and the downloaded bytes were stored |
| `Billing.OpenCheckout` | app.py:192-203 | the checkout session is requested for the given customer; the response is its URL exactly when the request answers, and the table is untouched |
| `Billing.Subscription` | app.py:180-206 | only the user's own row can change, and only its customer id. An assigned id is kept and only retrieved. A missing id leads to exactly one customer creation, whose id is stored unless creation raised or the unique column rejects it. The response is a checkout URL exactly when every billing call answers and the new id is free, and then it is for the customer just created or retrieved. A taken id, and only that, gives the constraint failure. A billing call that raises gives a 400 carrying that call's message. The trace is exactly the customer call, followed by the checkout request only when that call answered and its id was committed; a rejected commit stops before the checkout. The unique keys are preserved |
| `Billing.SecondSubscribeCreatesNoCustomer` | app.py:185-190 | after a call that left a customer id on the row (even one whose checkout then raised), a second call creates no customer (at most one creation over both) and keeps the stored id |
| `Billing.ConstructEvent` | app.py:212-217 | definition: an event is accepted exactly when the payload decodes and its signature verifies against the secret |
| `Billing.FirstWithCustomer` | app.py:223 | the lookup returns the first row whose customer id equals the key (NULL matching NULL), or none when no row matches |
| `Billing.WebhookDelivery` | app.py:208-230 | a failed verification is a 400 with the table unchanged, and only it is. Only a verified `checkout.session.completed` changes anything: it sets `subscribed` on the first matching row and is acknowledged whether or not a row matches; such an event without `data.object`, and only it, is a 500. No other field changes, no flag goes back to false, and the unique keys are preserved |
| `Billing.NullCustomerSubscribesFirstRowWithoutId` | app.py:221-225 | a completed checkout without a customer subscribes the first row that has no customer id |
| `Billing.CustomerLookupIsUnique` | app.py:45 | with the unique constraint, a customer id belongs to at most one row, and the lookup finds that row |
| `Billing.RedeliveryIsHarmless` | app.py:219-226 | delivering the same event twice leaves the table as delivering it once |
| `Billing.EntitlementIsMonotone` | app.py:180-230 | over any sequence of subscribe and webhook requests: no row is lost, no subscription is revoked, no assigned customer id is replaced, and the unique keys keep holding |
| `Billing.UserTable.constructor` | app.py:40-45 | a table starts out satisfying its unique constraints on id, email and customer id |
| `Billing.UserTable.CheckSubscription` | app.py:171-174 | definition: the answer is the user's stored `subscribed` flag |
| `Billing.UserTable.Subscribe` | app.py:180-206 | updates the table in place to the rows `Subscription` gives, with the same response and calls, and keeps the unique constraints |
| `Billing.UserTable.HandleWebhook` | app.py:208-230 | updates the table in place to the rows `WebhookDelivery` gives, with the same response, and keeps the unique constraints |

## Left out

- Flask routing, templates, redirects, `flash`, `login`, `signup`, `logout` and
  Flask-Login sessions (app.py:118-155) are web plumbing. The logged-in user is
  a row index passed in.
- The SQLAlchemy engine, `create_all`, `load_user` and `commit` (app.py:23,
  53-58) are not modelled. The table is an in-memory sequence of rows, and
  "first" means first in that sequence. A commit that breaks the unique
  customer-id column is modelled as a 400 that changes nothing.
- Gemini, the OpenAI image API, `requests.get`, Stripe and `uuid.uuid4()` are
  foreign calls. They appear as function parameters that give their answers,
  or that raise. Stripe's signature scheme is the parameter `verify`, and event
  decoding is `decode`.
- The fixed request parameters (`n=1`, size, `response_format`, the checkout's
  price id and redirect URLs) are configuration only and are not modelled.
- Logging (`print`) is not modelled.
- The exceptions' texts are not modelled. A Stripe exception's message is
  kept opaque. The commit's integrity error and the webhook's 400 body have no
  text in the model.
- `Api.HandleGenerate`: the request's `prompt` field is modelled as an
  optional string. A non-string JSON value (a number, a list) and a body that
  is not JSON are not modelled.
- `ImageGen.Generate`: a result entry whose `url` is null is not modelled;
  each result is a URL.
- `Billing.WebhookDelivery`: a `customer` that is not a string (an expanded
  object) is not modelled.
- `save_binary_file` I/O errors and filesystem paths are not modelled. The
  static directory is a map from file name to bytes. The `/static/<path>` route
  (app.py:176-178) only serves those files, so it is not modelled.
- The `GeneratedImage` table (app.py:47-51) is declared but never written.
- `check_model_access.py` is a diagnostic script that only lists models and
  prints them.
- Concurrency is not modelled. Two simultaneous `subscribe` calls for one user
  could each create a customer. The model treats requests one at a time.

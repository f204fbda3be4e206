# WhatsApp chatbot of the Barito Timur Manpower Office: keyword router and webhook

The chatbot answers WhatsApp questions about the services of the Dinas Tenaga
Kerja Barito Timur. The core is the keyword router `cari_jawaban`. It
lowercases the question and scans the ordered table `KNOWLEDGE_BASE` for the
first key that occurs in it as a substring. If no key occurs, it tries six
ordered groups of synonyms. It answers with `*judul*\n\nkonten` for the record
it lands on, or `None`. Around it, the webhook does three things:

- it answers Meta's subscription handshake;
- on a POST, it sends the router's answer back, or asks the DeepSeek
  completion API when the router found nothing;
- it posts the reply to the WhatsApp messaging API.

Files:

- `wrappers.dfy`: `Option`, and `Outcome` (returned a value or raised an exception).
- `text.dfy`: `str.lower()` and the substring test `k in s`, with their laws.
- `knowledge.dfy`: the table, the synonym groups, the specification function
  `Route`, the method `CariJawaban` that follows the source's loop and
  `if`-chain, and the router's properties.
- `app.dfy`: the token default, `verify_webhook`, `query_deepseek`, the reply
  selection, the payload, and a `Server` class for the handler. The class
  records every prompt sent to the completion API (`prompts`) and every
  payload posted to the messaging API (`outbox`).

Modelling decisions:

- **Lowercasing** is ASCII only: 'A'..'Z' become 'a'..'z' and every other
  character is unchanged. All keys and synonyms are lower-case ASCII.
- **The router takes its table as a parameter** `kb`. Every property that
  depends on the table's layout assumes `Shaped(kb)`:
  - the seven keys, in order;
  - "pengantar" holding a bare string;
  - the other six holding records whose titles start with six different letters.

  `KnowledgeBaseShaped` proves that the constant `KnowledgeBase` has this layout.
- **Record contents** are stored as their lines and joined with `"\n"`. This
  gives exactly the source's triple-quoted texts, including the leading and
  trailing newline.
- **The "pengantar" entry.** In the source, its value is a plain string, so
  `data['judul']` raises `TypeError`. The model returns `Raised(TypeError)`,
  and the webhook then answers 500 without sending anything.
- **A missing dictionary key** would raise `KeyError` in the synonym pass. It
  is modelled too, although it cannot happen over `KnowledgeBase`
  (`GroupTarget`).
- **One delivery attempt.** `send_whatsapp_message` posts once and only logs a
  failure; there is no retry or back-off.

## Model

| member | source | states |
|---|---|---|
| Text.LowerChar | knowledge.py:107 | one character lowered: never upper-case afterwards; non-letters unchanged; a capital maps to its letter 32 code points on |
| Text.Lower | knowledge.py:107 | `pertanyaan.lower()` keeps the length and lowers each character in its position |
| Text.LowerIsLowerCase | knowledge.py:107 | the lowered question has no upper-case letter |
| Text.LowerOfLowerCase | knowledge.py:107 | lowering a string without capitals leaves it unchanged |
| Text.LowerIdempotent | knowledge.py:107 | lowering twice is lowering once |
| Text.ContainsIffOccurs | knowledge.py:111 | `k in s` holds exactly when `k` occurs at some index of `s` |
| Text.ContainsAt | knowledge.py:111 | an occurrence at any index makes `k in s` true |
| Text.ContainsInContext | knowledge.py:111 | a contained keyword stays contained whatever text surrounds the string |
| Text.TooLongNotContained | knowledge.py:111 | a keyword longer than the question never matches |
| Text.LowerKeepsOccurrence | knowledge.py:107-111 | an occurrence of a keyword survives lowercasing of both sides |
| Text.Contains | knowledge.py:111 | `keyword in pertanyaan`: the keyword is a prefix of the question or of one of its suffixes; `ContainsIffOccurs` ties it to an occurrence at an index |
| Text.AnyOccurs | knowledge.py:115 | `any(k in pertanyaan for k in words)`: some word of the list is contained in the question |
| Knowledge.Format | knowledge.py:112 | the reply is '*', the title, "*\n\n", then the content: length is both plus 4, and title and content can be read back from their positions |
| Knowledge.Route | knowledge.py:106-133 | the specification of `cari_jawaban` over a table: lowercase, then the first key hit renders its entry, else the first synonym group renders its key's entry, else None; its properties are the Knowledge lemmas in this table |
| Knowledge.FirstWhere | knowledge.py:110-112 | the index found is the first hit, every earlier element misses, and None means there is no hit at all |
| Knowledge.Render | knowledge.py:112 | a record gives `Some("*" + judul + "*\n\n" + konten)`; a bare string raises exactly a TypeError |
| Knowledge.Lookup | knowledge.py:116 | `KNOWLEDGE_BASE[key]` is absent exactly when no pair has the key, and is otherwise a value stored with the key |
| Knowledge.RenderKey | knowledge.py:116 | a missing key raises `KeyError(key)`; a present key renders its value |
| Knowledge.CariJawaban | knowledge.py:106-133 | the loop over the table with early return, then the six `any` tests, compute exactly `Route` |
| Knowledge.GroupsAreTheSynonymChain | knowledge.py:115-131 | the synonym table is the source's if-chain of six `any` tests, word for word and in order |
| Knowledge.KnowledgeBaseShaped | knowledge.py:4-103 | KNOWLEDGE_BASE has the seven keys in order, "pengantar" is a bare string, the rest are records with distinct title initials |
| Knowledge.KeysDistinct | knowledge.py:4-103 | the seven keys are pairwise different |
| Knowledge.LookupFindsStoredValue | knowledge.py:116 | with distinct keys, indexing by a stored key gives the value stored with it |
| Knowledge.GroupKeys | knowledge.py:115-131 | synonym group g names the key at table position g + 1 (kartu kuning, jam operasional, lokasi, pelatihan, lowongan, bansos) |
| Knowledge.GroupTarget | knowledge.py:115-131 | each synonym group's answer is the rendering of its own table entry |
| Knowledge.DistinctTitlesDistinctReplies | knowledge.py:112 | records with different title initials never give the same reply |
| Knowledge.CaseInsensitive | knowledge.py:107 | `cari_jawaban(q) == cari_jawaban(q.lower())` |
| Knowledge.FirstKeyDecides | knowledge.py:110-112 | the first key in table order that occurs in the lowered question decides the result |
| Knowledge.PengantarRaises | knowledge.py:110-112 | a question mentioning "pengantar" in any case raises TypeError instead of returning |
| Knowledge.RaisesOnlyOnPengantar | knowledge.py:110-131 | the router raises if and only if the lowered question contains "pengantar", and then only with TypeError |
| Knowledge.KeyBeatsSynonym | knowledge.py:110-116 | "pelatihan" together with "syarat" (and no earlier key) gives the training answer, which differs from the yellow-card answer |
| Knowledge.FirstGroupDecides | knowledge.py:115-131 | with no key present, the first synonym group with a word present gives its record's formatted text |
| Knowledge.OpeningHoursOnJamOrBuka | knowledge.py:118-119 | with no key and no yellow-card synonym, "jam" or "buka" gives the opening-hours answer |
| Knowledge.AnswersAreFormattedRecords | knowledge.py:112-131 | every answer is `*judul*\n\nkonten` of one of the six records, so it is non-empty and starts with '*' |
| Knowledge.NoneIffNothingOccurs | knowledge.py:133 | None is returned exactly when no key and no synonym occurs in the lowered question |
| Knowledge.MapsMissesEarlierWords | knowledge.py:115-119 | "maps" contains no key and no word of the first two synonym groups |
| Knowledge.MapsFindsTheOffice | knowledge.py:121-122 | matching is by substring: "Maps" contains "map" and gets the location answer |
| App.WebhookToken | app.py:11 | WEBHOOK_TOKEN is the environment value when set and "bartim123" otherwise |
| App.VerifyWebhook | app.py:86-94 | code 200 with the challenge if and only if mode is "subscribe" and the token matches; otherwise "Verification failed" with 403, also when mode or token is missing |
| App.DefaultTokenVerifies | app.py:92 | with WEBHOOK_TOKEN unset, a subscribe request passes exactly when its token is "bartim123" |
| App.DeepSeekReply | app.py:39-49 | `query_deepseek` yields the completion's content, and on any failure the fixed apology instead of raising |
| App.LlmPrompt | app.py:74-76 | the prompt is the fixed prefix followed by the user's message verbatim |
| App.BuildPayload | app.py:103-107 | the payload has messaging_product "whatsapp", to = the phone number, text.body = the message |
| App.SelectReply | app.py:69-76 | a truthy router answer is the reply; otherwise the reply is the LLM's answer to the fixed prompt |
| App.Truthy | app.py:72 | Python truthiness of the router's result: `not response` is false exactly for a non-empty string |
| App.AskLlmIffNoAnswer | app.py:72 | over KNOWLEDGE_BASE's layout, `not response` holds exactly when the router returned None |
| App.ReplyForRoute | app.py:69-79 | a found answer is sent verbatim; a None sends the LLM's answer to the prompt |
| App.Server.constructor | app.py:9-11 | start-up: the table is KNOWLEDGE_BASE with its layout, the token is WEBHOOK_TOKEN, nothing has been sent |
| App.Server.QueryDeepSeek | app.py:13-49 | one prompt is recorded, nothing is posted, and the result is the never-raising reply |
| App.Server.SendWhatsAppMessage | app.py:96-117 | exactly one payload is appended to the outbox and nothing else changes |
| App.Server.Webhook | app.py:55-84 | GET is the handshake and sends nothing. A malformed POST gets 500 and sends nothing. A raising router gets 500 and sends nothing. Otherwise exactly one payload with the selected reply goes out, the LLM is asked only for a falsy answer, and the response is 200 success |
| App.AnswerKnownQuestion | app.py:69-80 | a POST the router can answer sends that answer unchanged, asks no LLM, and returns 200 |

## Left out

- Flask routing, the `/` route, `app.run` and the HTTP status of the provider
  responses are left out because they are library I/O. A request arrives
  already decoded as `Request`.
- The Meta webhook JSON structure is left out. Field extraction is modelled
  only as succeeding with (phone, text) or raising (`Inbound.Malformed`).
- The body of `requests.post`, the timeout, and the request headers and
  system prompt sent to DeepSeek are left out. The completion API is an
  oracle `llm` from prompt to `Completion(content)` or `Failure`. The
  content of its reply is not modelled.
- The messaging API call is recorded as one entry in `outbox` and does not
  report errors. The source only logs them.
- `print` logging is left out.
- The text of `str(e)` in the 500 body is left out. The error is carried as
  the `HandlerError` value itself.
- Text.Lower: models ASCII lowercasing only, not Python's full Unicode
  `str.lower()`. Some non-ASCII characters lower to ASCII letters in Python,
  so the model routes such questions differently. "\u212Aantor" (KELVIN SIGN)
  lowers to "kantor" in Python and gets the office answer; the model leaves it
  unchanged and returns None. "LOKAS\u0130" lowers to "lokasi\u0307" in
  Python and hits the key "lokasi"; the model finds no key.
- Knowledge.CaseInsensitive: states insensitivity to ASCII case only, for the
  same reason.
- When `hub.challenge` is absent, Flask's handling of returning `None` with
  code 200 is not modelled. The model returns `PlainText(None)`.
- That KNOWLEDGE_BASE is never modified holds by construction: it is a
  `const`, and `Server.knowledge` is a `const` field.
- A retry/back-off delivery queue is not part of the code, so it is not part
  of this model.

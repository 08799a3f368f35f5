# FaceMessage display controller

FaceMessage is a Pebble watch app. It receives small key/value dictionaries from the
phone, and shows either a text layer or a face image on its one window. This project
models the app's display controller in Dafny. The controller is the set of handlers in
`src/FaceMessage.c` and the state they share:

- the children of the window's root layer (`layer_remove_child_layers`, `layer_add_child`);
- the text of `text_layer`;
- the global `message`, the last key-1 value received, which starts out NULL;
- the bitmap resource loaded into `s_image`.

Files:

- `wrappers.dfy`: `Option`, which stands in for a `char*` or `GBitmap*` that may be NULL.
- `cstrings.dfy`: `CString` (text up to the terminating NUL) and `StrCmp`, the sign of
  C's `strcmp`.
- `inbox.dfy`: the decode loop of the inbox handler. `Decode` is its specification as a
  fold over the tuples. `ReadPairs` is the loop itself. The lemmas say which tuple's value
  ends up in `message` and which in `sentiment`.
- `images.dfy`: `ChooseImage`, the `strcmp` chain that picks the bitmap.
- `face_message.dfy`: the state as a value (`Screen`), what each handler does to it
  (`Next`), and runs of events (`Run`). The class `Controller` holds one method per
  handler, and each method is proved to implement `Next`. Lemmas cover every sequence of
  events that can follow the window's load.

The model follows the code as written, also where that differs from what the source's own
comments, or the shape of its branches, show was meant:

- **Key-1 fallthrough.** `case 1` of the decode `switch` has no `break`
  (src/FaceMessage.c:35-40). A key-1 tuple therefore sets `sentiment` as well as `message`.
  The separate keys suggest that key 1 was meant to set only `message`. As written, a
  dictionary with only a key-1 tuple picks its image from the message text.
- **Inverted image choice.** The comment at src/FaceMessage.c:48-50 says the handler shows
  the image that corresponds to the sentiment. But `strcmp` is non-zero when its arguments
  differ. So `"sad"` loads the smiley, and every other sentiment loads the frown, including
  `""` and `"happy"`. The neutral branch never runs. Evidently the intent was `"sad"` to
  the frown, `"happy"` to the smiley, and anything else to the neutral face.
- **Status handlers do not re-attach the text layer.** The dropped, failed, sent, select
  and down handlers only set the text (src/FaceMessage.c:69-86, 98-101). If the image layer
  is attached, the new text is not visible until Up re-attaches the text layer, which then
  replaces the text with `message` (src/FaceMessage.c:91-95).
- **`message` starts as NULL.** `"Welcome"` is only the text layer's first text
  (src/FaceMessage.c:115). `message` stays NULL until a key-1 tuple arrives, so Up before
  that shows NULL text.

Within one dictionary, `message` ends as the value of the last key-1 tuple, and
`sentiment` as the value of the last tuple keyed 1 or 2.

## Model

| member | source | states |
|---|---|---|
| `CStrings.StrCmp` | src/FaceMessage.c:51-56 | the `strcmp` result is -1, 0 or 1, and it is 0 exactly when the two strings are equal |
| `Images.ChooseImage` | src/FaceMessage.c:51-66 | the sentiment `"sad"` yields the smiley, every other sentiment yields the frown, and the neutral resource is never chosen |
| `Inbox.ReadPair` | src/FaceMessage.c:34-41 | the `switch` in its own shape (case 1 stores `message`, then falls into case 2, which stores `sentiment`) amounts to: key 1 sets both fields, key 2 only `sentiment`, any other key neither |
| `Inbox.ReadPairs` | src/FaceMessage.c:28-45 | the `while` loop over the dictionary leaves `message` and `sentiment` exactly as the fold `Decode` does, starting from the old `message` and `""` |
| `Inbox.MessageIsLastKeyOne` | src/FaceMessage.c:30-45 | after decoding, `message` is the value of the last key-1 tuple; with no key-1 tuple it keeps its previous value |
| `Inbox.SentimentIsLastKeyOneOrTwo` | src/FaceMessage.c:30-45 | after decoding, `sentiment` is the value of the last tuple keyed 1 or 2; with no such tuple it is `""` |
| `Inbox.DecodeAppendMessage` | src/FaceMessage.c:37 | `message` is a global, so decoding two dictionaries one after the other leaves it where decoding their concatenation would |
| `FaceMessage.Controller.Load` | src/FaceMessage.c:109-118 | after the window loads, the only child is the text layer, the text is `"Welcome"`, and `message` and `s_image` are NULL |
| `FaceMessage.Controller.RemoveChildLayers` | src/FaceMessage.c:52 | `layer_remove_child_layers` leaves the root layer with no children and changes nothing else |
| `FaceMessage.Controller.AddChild` | src/FaceMessage.c:54 | `layer_add_child` appends the layer in front of the existing children and changes nothing else |
| `FaceMessage.Controller.SetText` | src/FaceMessage.c:71 | `text_layer_set_text` replaces the text and changes nothing else, whether or not the layer is attached |
| `FaceMessage.Controller.OnInboxReceived` | src/FaceMessage.c:25-67 | the only child is now the image layer, `message` is the decoded message, `s_image` is the resource chosen from the decoded sentiment, and the text is unchanged |
| `FaceMessage.Controller.OnInboxDropped` | src/FaceMessage.c:69-72 | the text becomes `"Dropped"`; the children, `message` and `s_image` are unchanged |
| `FaceMessage.Controller.OnOutboxFailed` | src/FaceMessage.c:74-77 | the text becomes `"Failed"`; the children, `message` and `s_image` are unchanged |
| `FaceMessage.Controller.OnOutboxSent` | src/FaceMessage.c:79-82 | the text becomes `"Sent"`; the children, `message` and `s_image` are unchanged |
| `FaceMessage.Controller.OnSelectClick` | src/FaceMessage.c:84-86 | the text becomes `"Select"`; the children, `message` and `s_image` are unchanged |
| `FaceMessage.Controller.OnUpClick` | src/FaceMessage.c:88-96 | the only child is now the text layer, and the text is `message` (NULL if no key-1 tuple has arrived); `message` is unchanged |
| `FaceMessage.Controller.OnDownClick` | src/FaceMessage.c:98-101 | the text becomes `"Down"`; the children, `message` and `s_image` are unchanged |
| `FaceMessage.NextKeepsOneChild` | src/FaceMessage.c:25-101 | if exactly one layer is attached before a handler runs, exactly one is attached after it |
| `FaceMessage.OneChildAlways` | src/FaceMessage.c:25-118 | after the window loads, whatever events follow, exactly one layer (text or image) is attached |
| `FaceMessage.NeutralNeverLoaded` | src/FaceMessage.c:51-66 | over any run of events, `s_image` never holds the neutral resource |
| `FaceMessage.MessageAfterRun` | src/FaceMessage.c:28-45 | after any run of events, `message` is what decoding all received tuples in order, from NULL, leaves |
| `FaceMessage.UpShowsLastKeyOne` | src/FaceMessage.c:88-96 | pressing Up after any run shows the value of the last key-1 tuple ever received, or NULL text if none has arrived |
| `FaceMessage.EmptyInboxShowsFrown` | src/FaceMessage.c:28-66 | an empty dictionary leaves `message` and the text unchanged but still attaches the image layer alone, with the frown |
| `FaceMessage.TextChangesWhileDetached` | src/FaceMessage.c:69-101 | from any state where the image layer is the only child, the dropped, failed, sent, select and down handlers set the text to `"Dropped"`, `"Failed"`, `"Sent"`, `"Select"` and `"Down"` respectively, and the image layer stays the only child |
| `FaceMessage.HelloSadShowsSmiley` | src/FaceMessage.c:28-96 | `{1: "hello", 2: "sad"}` loads the smiley and stores `"hello"`, and Up then shows `"hello"` |
| `FaceMessage.PingShowsFrown` | src/FaceMessage.c:34-55 | `{1: "ping"}` alone makes `"ping"` the sentiment through the fallthrough, so the frown is loaded |

## Left out

- `layer_update_callback` is not modelled. It covers drawing the bitmap, the
  `PBL_PLATFORM_BASALT` bounds lookup and the graphics context. That is rendering, not
  controller state.
- `layer_set_update_proc` on the image layer is not modelled. Every inbox handler run
  sets the same callback.
- Bitmap loading is reduced to which resource id is chosen. `gbitmap_create_with_resource`
  allocates a new bitmap on every message and never frees the old one; that leak is not
  modelled.
- Logging (`APP_LOG`), the text alignment and the layer geometry are not modelled. They
  are not state the handlers read.
- These are callback registration, transport setup or event-loop I/O, and are not
  modelled: `init`, `deinit`, `main`, `click_config_provider`, `window_unload`, the
  `app_message_register_*` calls, `app_message_open` and `app_event_loop`. Events arrive
  in `Run` as a plain sequence, one handled at a time.
- The handlers' `reason`, `recognizer` and `context` arguments, and the `iterator` of
  `outbox_failed_callback` and `outbox_sent_callback`, are unused by the code and are not
  parameters here. The inbox handler's `iterator` is read; it is the `pairs` parameter.
- Tuple values are always read as C strings. The code casts every value to `char*`
  whatever the tuple's type, and integer or byte-array tuples are not modelled.
- Strings are values. `message` and the text layer keep the address of text inside the inbox
  buffer, which may be reused after the handler returns; that aliasing is not modelled.
- `FaceMessage.Controller.AddChild`: does not model Pebble re-parenting a layer that
  already has a parent. In the handlers every call follows `layer_remove_child_layers`.
  In `window_load` the text layer has just been made by `text_layer_create`
  (src/FaceMessage.c:113). So the layer never has a parent at that point.
- `CStrings.StrCmp`: gives only the sign of `strcmp` and compares characters by code
  point, not as unsigned bytes. The handlers only test whether the result is zero.

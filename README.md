# Event-driven message streaming: a Dafny model

This project models the two pieces of behaviour in the service's `app/`
directory:

- **The worker task `generate_messages`** (app/worker.py). It derives the Redis
  stream key `stream:<feature_id>:<chat_id>`. It appends twenty message entries
  with ids `"0"`..`"19"` to that stream, then the `[DONE]` sentinel. It sets a
  60-second expiry and returns `Generated 20 messages for <feature>:<chat>`.
  When an awaited call raises an ordinary exception, the `except Exception`
  handler appends one error record and re-raises.
- **The `/stream` handler's inner generator and the health route** (app/main.py).
  The generator yields twenty `data: <json>\n\n` frames and then
  `data: [DONE]\n\n`. The health route returns `{status: "healthy", feature_id}`.

Files:

- `streams.dfy` (module `Streams`): the Redis operations the worker uses. The
  class `StreamStore` holds a map from key to stream and a map from key to
  time-to-live. `XAdd` and `Expire` change those maps in place.
- `worker.dfy` (module `Worker`): the task as the imperative method
  `GenerateMessages`; its loop of appends is the method `AppendMessages`. A `Fault` parameter chooses which
  awaited call raises, and what it raises: an xadd of message k, the sleep after
  message k, the sentinel xadd, or `expire`. The run is specified by the
  functions `RunAppends` (the exact entries appended) and `RunOutcome` (returned
  text or propagated exception). Lemmas about those functions state what the
  source promises.
- `api.dfy` (module `Api`): the generator as the pure function `Generate`. The
  health payload is the function `Health`.
- `decimal.dfy` (module `Decimal`): Python's `str(i)` for naturals and its inverse.
- `protocol.dfy` (module `Protocol`): the two constants both files share, the
  message count 20 and the `[DONE]` marker.

What the code does, and does not do:

- Neither file has a job dispatcher that checks for an existing log before
  submitting, or a relay that tails the stream with an inactivity timeout.
  The `/stream` route is a `GET` without parameters that never reads Redis.
- A run appends exactly one terminal entry, as its last, when it returns or
  when an ordinary exception is raised before `expire`
  (`OneTerminalEntryLast`). `expire` sits inside the `try`, so when it raises, the stream holds
  `[DONE]` followed by an error record (`ExpireFailureLeavesTwoTerminals`).
  `except Exception` does not catch a task cancellation. A cancellation before
  the sentinel therefore leaves no terminal entry at all
  (`CancellationLeavesNoTerminal`).
- The worker never inspects the stream it writes. A second run for the same
  session appends to the same stream and adds a second sentinel
  (`RepeatedRunsLeaveTwoSentinels`).
- The stream key joins the two ids with `:`. Keys are distinct when no feature
  id contains a colon (`StreamKeyInjective`), and also when no chat id contains
  one (`StreamKeyInjectiveByChat`). A colon in one session's feature id and in
  another's chat id can make two sessions share one stream
  (`StreamKeyCollision`).
- The health route is registered at the path `/heath` (sic). The path is
  transport and is not part of the model; the payload is `Api.Health`.
- The error record carries `feature_id` and `chat_id` as separate fields, not
  the stream key.

## Model

| member | source | states |
|---|---|---|
| `Decimal.NatToString` | app/worker.py:31 | `str(i)` of a natural is non-empty, all digits, and has no leading zero unless it is `"0"` |
| `Decimal.NatToStringRoundTrip` | app/worker.py:31 | reading back the decimal text of `n` gives `n`, so distinct message indices get distinct ids |
| `Decimal.NatToStringInjective` | app/worker.py:31 | two indices with the same decimal id are equal |
| `Streams.StreamStore.XAdd` | app/worker.py:42 | the stream at the key gains the entry as its last element; other streams and every expiry are unchanged |
| `Streams.StreamStore.Expire` | app/worker.py:50 | sets the key's time-to-live exactly when the key exists and reports whether it did; streams are unchanged |
| `Worker.StreamKey` | app/worker.py:23 | the key is `stream:`, the feature id, `:` and the chat id, in that order and nothing else |
| `Worker.MessageTextLayout` | app/worker.py:34 | message i's text is `Message `, the decimal digits of i (reading back as i), then ` from feature F, chat C` |
| `Worker.MessageAt` | app/worker.py:30-39 | message i has the id `str(i)`: the canonical decimal text of i, with no leading zero, reading back as i; the session's feature and chat ids, the text of message i, the i-th clock reading, the container's host name and feature id, and worker `arq` |
| `Worker.ErrorEntry` | app/worker.py:56-62 | the error entry has only the `data` field, is terminal and differs from the sentinel, and records the exception text with the feature and chat ids |
| `Worker.SuccessText` | app/worker.py:52 | the returned text reports the number of messages appended, then the feature and chat ids joined by `:` |
| `Worker.RunAppends` | app/worker.py:28-64 | a run appends at most 22 entries, and the `[DONE]` sentinel is among them exactly when no call raises before it does |
| `Worker.RunOutcome` | app/worker.py:28-64 | a run returns exactly when no call up to `expire` raises; otherwise it propagates the exception that was raised |
| `Worker.AppendMessages` | app/worker.py:29-43 | the message loop fails exactly when an xadd or sleep of a message raises, with that exception; the stream gains the messages before that point (all 20 when nothing fails); expiries are unchanged |
| `Worker.GenerateMessages` | app/worker.py:12-64 | only the session's stream changes, only by appending `RunAppends`; the 60 s expiry is set exactly when no call raises; the result is `RunOutcome` (the success text, or the raised exception re-raised) |
| `Worker.SuccessfulRunLog` | app/worker.py:29-52 | a clean run appends 21 entries: message i (i < 20) has a single `data` field, the id `str(i)` (exactly `"0"`..`"19"`, reading back as i), the session's feature and chat ids, text `Message i from feature F, chat C`, the i-th clock reading and worker `arq`; entry 20 is `data: [DONE]`; the result is `Generated 20 messages for F:C` |
| `Worker.EveryEntryHasOnlyDataField` | app/worker.py:42-63 | every entry any run appends has exactly one field, `data` |
| `Worker.FailedAppendLog` | app/worker.py:29-64 | when the append of message k < 20 raises, the stream gains messages 0..k-1 and one error record with the exception text, feature id and chat id; no sentinel, no expiry, and the exception propagates |
| `Worker.OneTerminalEntryLast` | app/worker.py:28-63 | a run that returns, or raises an ordinary exception before `expire`, appends exactly one terminal entry (sentinel or error record), and it is the last |
| `Worker.SessionLogEndsWithOneTerminal` | app/worker.py:42-63 | appended after a stream holding no terminal entry, such a run leaves the whole stream with exactly one terminal entry, as its last |
| `Worker.ExpireFailureLeavesTwoTerminals` | app/worker.py:45-63 | when `expire` raises, the run appends the 20 messages, `[DONE]` and then an error record: two terminal entries |
| `Worker.CancellationLeavesNoTerminal` | app/worker.py:54-64 | a cancellation raised before the sentinel is not caught by `except Exception`: no terminal entry is appended and the cancellation propagates |
| `Worker.ExpiryOnlyOnSuccess` | app/worker.py:45-52 | the expiry is set if and only if the run returns; such runs end with `[DONE]` and return the success text, all others propagate their exception |
| `Worker.RepeatedRunsLeaveTwoSentinels` | app/worker.py:23-47 | two clean runs with the same feature and chat ids write to the same stream key, and together append 42 entries of which exactly two are terminal: entries 20 and 41, both `[DONE]` |
| `Worker.StreamKeyInjective` | app/worker.py:23 | when neither feature id contains `:`, equal stream keys imply equal feature and chat ids |
| `Worker.StreamKeyInjectiveByChat` | app/worker.py:23 | when neither chat id contains `:`, equal stream keys imply equal feature and chat ids |
| `Worker.StreamKeyCollision` | app/worker.py:23 | some two different (feature, chat) pairs, one with a colon in its feature id and the other in its chat id, share a stream key |
| `Api.MessageAt` | app/main.py:24-30 | message i has the numeric id i, the service's feature id, the i-th clock reading and the host name read for it |
| `Api.DataFrame` | app/main.py:31-34 | framing a payload as `data: <payload>\n\n` gives a data frame whose payload reads back unchanged |
| `Api.DoneFrameText` | app/main.py:34 | the closing frame is exactly `data: [DONE]\n\n` |
| `Api.MessageFrames` | app/main.py:23-31 | the frames from index `from` to 19 are, in order, the data frames of the encoded messages with those indices |
| `Api.Generate` | app/main.py:22-34 | exactly 21 frames: frame i < 20 is the data frame of message i's JSON, frame 20 is exactly `data: [DONE]\n\n` |
| `Api.FramesCarryMessagesInOrder` | app/main.py:23-34 | every frame is a data frame; frame i's payload encodes the message with numeric id i and the service's feature id; the last payload is `[DONE]` |
| `Api.MessageTextNamesIndex` | app/main.py:27 | message i's text is `Message `, the decimal digits of i (reading back as i), then ` from feature ` and the feature id |
| `Api.DoneOnlyInLastFrame` | app/main.py:31-34 | when the encoder writes JSON objects, a frame's payload is `[DONE]` if and only if it is the last frame |
| `Api.Health` | app/main.py:16-18 | the health payload has exactly the keys `status` and `feature_id`, with `healthy` and the service's feature id |

## Left out

- Worker.GenerateMessages: assumes the handler's own error-record xadd succeeds. In Python a failure there would replace the exception and append nothing.
- Worker.GenerateMessages: a failing xadd or expire is taken to have changed nothing in Redis.
- Worker.GenerateMessages: runs are modelled as if no other writer touches the session's stream between their awaits. The worker runs up to 10 jobs at once (app/worker.py:101), so two runs for one session can interleave their entries, and then the one-terminal-entry-last property of `SessionLogEndsWithOneTerminal` does not hold.
- Worker.GenerateMessages: faults come only from the awaited calls (the xadds, the sleeps, `expire`). Building a message dictionary and `json.dumps` of strings do not raise.
- Redis entry ids, the countdown and removal of expired keys, and connection setup and teardown (`startup`, `shutdown`): the store is an ordered list per key with a recorded time-to-live.
- ARQ `WorkerSettings`: configuration of the external job executor.
- `asyncio.sleep` pacing: only its timing is left out. In the worker (`Worker.GenerateMessages`) the sleep after each message stays in the model as a point where a cancellation or exception can arrive. The generator `Api.Generate` has no failure points in the model.
- `datetime.now()` and `os.getenv`: the worker's clock readings and the `HOSTNAME`/`FEATURE_ID` values are fields of `Worker.Job`. For the generator they are fields of `Api.Context`. Per message, the clock and host name are indexed by the message number.
- `json.dumps`: worker entries keep the record they encode as a datatype. The generator takes the encoder as a parameter and makes no claim about JSON text.
- FastAPI routing, the `info` route, `StreamingResponse` media type and headers, and the uvicorn entry point: transport only.
- The load and autoscaling test harnesses: HTTP clients, threads, wall-clock timing and floating-point statistics.
- Job admission and log tailing with an inactivity timeout: the service's code has neither (see above), so there is nothing to model.

# Discord interactions handler — verified model

This project models the `POST /interactions` handler of a Discord bot
(`interactions` in `main.py`). Discord sends every interaction to this
endpoint. Once the request signature has been checked and the body decoded,
the handler picks the acknowledgment to send back:

- a PING (interaction type 1) is answered with a PONG, `{"type": 1}`;
- the APPLICATION_COMMAND (type 2) named exactly `test` is answered with a
  CHANNEL_MESSAGE_WITH_SOURCE (callback type 4) holding
  `テスト成功！Cloud Run のエンドポイントは正常です 🎉`;
- anything else is answered with a type-4 message holding `未対応のコマンドです。`.

The body is a generic decoded JSON value (`Json.Json`), not a record with the
two fields the handler reads. This lets the model follow Python exactly where
the body is not the expected shape:

- `v[key]` on a dict raises `KeyError` when the key is missing;
- `v[key]` on a list, string, number, bool or `None` raises `TypeError`;
- `v == InteractionType.PING` compares with the integer constant 1 (or 2 for
  APPLICATION_COMMAND). So `true` and `1.0` equal 1, while `"1"` equals nothing.

Objects are field lists in insertion order, as Python dicts are. `DistinctKeys`
states that a dict has no repeated key. Lookup returns the first field with the
key.

Modules:

- `Wrappers` holds `Option` and `Result`.
- `Json` holds the decoded value and dict lookup.
- `Python` holds subscripting, enum equality and the two exceptions.
- `Discord` holds the numeric codes. They come from the Interaction Type and
  Interaction Callback Type tables of Discord's Interactions API.
- `Handler` holds the handler (`Dispatch`), the reply dicts (`Encode`), their
  reading back (`DecodeReply`) and the two composed (`Interactions`).
- `InteractionProperties` holds the lemmas.

The handler has no 400 path of its own: a missing or mistyped field escapes
`interactions` as an uncaught `KeyError` or `TypeError` (the `Err` case), and
`test` is its only command.

## Model

| member | source | states |
|---|---|---|
| Json.Get | main.py:19-24 | dict subscript lookup: None exactly when the key is absent; otherwise the value of the first field with that key |
| Json.GetMember | main.py:19-24 | in a dict without repeated keys, looking up a field's key yields that field's value |
| Json.GetSkip | main.py:19-24 | a field under another key, inserted anywhere, does not change a lookup |
| Json.GetAt | main.py:24 | a field that no earlier field shares a key with is the one a lookup finds |
| Python.Subscript | main.py:19-24 | `v[key]`: the stored value when v is a dict holding key; KeyError(key) for a dict without it; TypeError for any non-dict |
| Python.EqualsInt | main.py:19-23 | `v == n` for the integer constant n: true exactly for the int n, the float n, and True/False when n is 1/0 |
| Handler.Dispatch | main.py:16-38 | the response is Pong or one of the two fixed messages; the only exceptions are KeyError on type/data/name and TypeError |
| Handler.CommandName | main.py:24 | `body["data"]["name"]`: TypeError for a non-dict body, KeyError('data') when data is absent, a value exactly when data is a dict holding name, and that value is the name stored in the body's data |
| Handler.Encode | main.py:20-37 | the reply dicts have no repeated keys and read back as the response they encode |
| Handler.Interactions | main.py:15-38 | the handler returns a dict exactly when the decision is a response, and that dict encodes the response; otherwise it raises the same exception |
| InteractionProperties.PingYieldsPong | main.py:19-20 | a body whose type equals 1 gets exactly {"type": 1} with no data, whatever else it holds |
| InteractionProperties.TestCommandSucceeds | main.py:23-32 | type 2 with data.name "test" gets {"type": 4, "data": {"content": success text}} |
| InteractionProperties.OtherNameFallsBack | main.py:26-38 | type 2 with any data.name other than exactly the string "test" gets the type-4 fallback message |
| InteractionProperties.OtherTypeFallsBack | main.py:19-38 | a type equal to neither 1 nor 2 gets the type-4 fallback message, with or without data |
| InteractionProperties.ReplyShape | main.py:19-38 | every reply is one of three dicts, and it has data exactly when its type is 4 |
| InteractionProperties.MissingTypeIsKeyError | main.py:19 | a dict body without type raises KeyError('type') |
| InteractionProperties.NonDictBodyIsTypeError | main.py:19 | a body that is not a dict raises TypeError |
| InteractionProperties.CommandWithoutDataIsKeyError | main.py:23-24 | a command without data raises KeyError('data') |
| InteractionProperties.CommandDataErrors | main.py:23-24 | a command whose data is not a dict raises TypeError; one whose data lacks name raises KeyError('name') |
| InteractionProperties.ErrorsExactly | main.py:19-38 | a dict body raises exactly when it lacks type, or is a command without a readable data.name |
| InteractionProperties.DataUnreadUnlessCommand | main.py:19-24 | when type is not 2, adding or removing data never changes the outcome |
| InteractionProperties.ExtraFieldsIgnored | main.py:19-38 | body fields other than type and data never change the outcome |
| InteractionProperties.ExtraDataFieldsIgnored | main.py:24-26 | fields of data other than name never change the outcome |
| InteractionProperties.DependsOnlyOnTypeAndName | main.py:19-38 | two bodies whose type values compare alike with 1 and 2 and, for commands, whose data.name reads alike get the same outcome |
| InteractionProperties.DecodeReplyInverse | main.py:20-37 | a JSON value reads back as response r exactly when it is the encoding of r |
| InteractionProperties.PingExamples | main.py:19-20 | {"type": 1}, {"type": true} and {"type": 1.0} are pings; {"type": "1"} and {"type": 3} get the fallback |
| InteractionProperties.CommandExamples | main.py:26-38 | names "test", "Test" and "" behave as the exact match dictates |
| InteractionProperties.ErrorExamples | main.py:19-24 | {}, {"type": 2}, a null data and an empty data raise the expected exceptions |

## Left out

- Signature verification: `verify_key_decorator` (main.py:14) is Ed25519 (RFC 8032) in a third-party library. The body is taken as authenticated.
- Configuration: `PUBLIC_KEY` is read from the environment (main.py:7) and used only by the decorator.
- HTTP plumbing: the FastAPI app, the routes and the `root` health endpoint (main.py:5, 9-13). So is the status code the framework sends for an uncaught exception. Such exceptions are the `Err` case.
- Request parsing: `await request.json()` (main.py:16) is framework I/O. The body is an already-decoded `Json`, and JSON text is out of scope. So is the parser's handling of repeated keys, and so is serialising the returned dict.
- Floating point: a JSON float is its exact finite value after parsing. Rounding is not modelled. Neither are the NaN and Infinity literals that Python's parser accepts; they equal no integer, so they would get the fallback.
- Command arguments, invoker context, ephemeral replies, persistence and follow-up messages: this handler has none of them.

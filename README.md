# KeySSI and ZKDID alias identifiers in Dafny

This project models two parts of the key-ssi-resolver library:

- **The KeySSI entity** built by `keySSIMixin` (`lib/KeySSIs/KeySSIMixin.js`). A KeySSI has a type, a domain, a specific string, a control string, a version and an optional hint. Its text form is `ssi:<type>:<domain>:<specific>:<control>:<vn>[:<hint>]`. The model covers:
  - the private closure state, as the fields of class `KeySSIMixin.KeySSI`;
  - parsing that text with `autoLoad`, and loading fields directly with `load`;
  - the hint object, and `getBricksDomain`, which can redirect storage through it;
  - resolving a `$NAME` domain against the environment;
  - `cast`, `clone` and the capability flags;
  - the signed anchor record that `createAnchorValue` builds.
- **The DID alias scheme** `ZKDID` (`lib/DID/ZKDID.js`): a domain and an alias, taken from a `did:alias:<domain>:<alias>` URL or from options, and written back with `toUrl`.

Files:

- `js_runtime.dfy` (module `JsRuntime`): the JavaScript behaviour the code relies on, with its properties proved. This covers `undefined`, JSON values and truthiness, and how a template literal renders `undefined`. It also covers `split(":")` and `join(":")`, `shift()`, and the decimal rendering of a timestamp.
- `keyssi_mixin.dfy` (module `KeySSIMixin`):
  - the closure state as a value, `KeyState`;
  - specification functions over that value;
  - the class `KeySSI`, whose methods are proved against those functions;
  - the anchor payload and record.
- `keyssi_properties.dfy` (module `KeySSIProperties`): the lemmas about the text form, the parser, `load`, `cast`, `clone` and the anchor value.
- `zkdid.dfy` (module `DIDAlias`): the class `ZKDID`, the construction outcome `Construct` and its lemmas.

Outside calls are parameters, not hidden state:

- base58 encode and decode, and `JSON.parse`, are fields of `Primitives`;
- `process.env` is a map;
- `Date.now()` is a number;
- the signing authority is a function from payload to outcome;
- `getAnchorId(true)` and the previous anchor's identifier are strings;
- the `DIDUrl` codec is a `DidUrlCodec`;
- the generated alias is a string.

Where a round trip depends on one of these, the lemma says so in its `requires`. `IsBase58Codec` requires the encoder to emit no colon and the decoder to undo it. `ParsesWhatItBuilds` requires the DID URL codec to read back what it builds from colon-free parts, and `BuildsWhatItParses` requires it to rebuild what it parses. `ColonCodec`, a codec that joins and splits at colons, is proved to meet the first. `DidOnlyCodec`, the same codec reading only URLs whose first segment is "did", is proved to meet both. `ParsesLikeJSON` requires that a text starting with `{` or `[` never parses to `null`.

The model follows the code in these places, where one might expect it to behave otherwise:

- `clone()` copies the object's own properties and then runs `keySSIMixin` on the copy. That replaces every accessor with fresh closures in the initial state, so the clone is a fresh object with `vn = "v0"` and every other field unset. It is not a copy of the original's fields.
- `autoLoad` with an empty version segment keeps the previous `_vn`. That value is `"v0"` on a fresh object, and otherwise whatever the last `load`, `cast` or parse left, which may be `undefined`. A missing version segment sets `_vn` to `undefined`.
- `autoLoad` replaces the hint only when the text has a hint segment. An earlier hint therefore survives a reload of an identifier that has none.
- `load` builds the hint object for any truthy hint, not only for one that looks like JSON.
- The length guard runs before parsing, and it compares the identifier string with 2048 rather than its length.

## Model

| member | source | states |
|---|---|---|
| JsRuntime.Split | lib/KeySSIs/KeySSIMixin.js:55 | `split(":")` yields at least one piece, and no piece holds a colon |
| JsRuntime.JoinSplit | lib/KeySSIs/KeySSIMixin.js:66 | rejoining the pieces of a split with ":" gives back the original text, so a hint's own colons survive |
| JsRuntime.SplitColonFree | lib/KeySSIs/KeySSIMixin.js:55 | a colon-free text splits into itself alone |
| JsRuntime.SplitAtColon | lib/KeySSIs/KeySSIMixin.js:55 | a colon-free head, a colon and a tail split into the head followed by the split tail |
| JsRuntime.SplitJoin | lib/KeySSIs/KeySSIMixin.js:163 | splitting the join of colon-free pieces gives those pieces back |
| JsRuntime.SplitJoinWithTail | lib/KeySSIs/KeySSIMixin.js:168-172 | colon-free pieces joined with a last piece that may hold colons split into the pieces plus the split last piece |
| JsRuntime.Shift | lib/KeySSIs/KeySSIMixin.js:56 | `shift()` returns the first element, or `undefined` when the array is empty, together with the rest; the two put back together are the input |
| JsRuntime.DecimalRoundTrip | lib/KeySSIs/KeySSIMixin.js:275 | the timestamp's decimal text is a non-empty run of digits with no leading zero, and it reads back as the timestamp |
| KeySSIMixin.ShiftFields | lib/KeySSIs/KeySSIMixin.js:55-61 | the `shift()` sequence gives the segments at positions 1 to 5 (undefined past the end) and leaves the segments from position 6 on |
| KeySSIProperties.DLDomainResolution | lib/KeySSIs/KeySSIMixin.js:133-143 | `getDLDomain()` is undefined exactly when the domain is falsy or is `$X` with `X` unset in the environment; a set `$X` reads `env[X]`; any other domain comes back as written and does not depend on the environment |
| KeySSIMixin.KeySSI.constructor | lib/KeySSIs/KeySSIMixin.js:9-18 | a new object has `vn = "v0"`, an empty hint object, no signing capability and every other field undefined |
| KeySSIMixin.KeySSI.CreateHintObject | lib/KeySSIs/KeySSIMixin.js:20-29 | the hint object becomes the parsed hint, or `{value: hint}` when parsing fails; it never throws |
| KeySSIMixin.KeySSI.Load | lib/KeySSIs/KeySSIMixin.js:80-93 | the new state is `LoadState` of the old one: every field is set, a falsy vn becomes "v0", and a truthy hint rebuilds the hint object |
| KeySSIMixin.KeySSI.AutoLoad | lib/KeySSIs/KeySSIMixin.js:35-72 | on success the new state is `AutoLoadState`; on a thrown error the state is unchanged and the error is the one `AutoLoadState` names |
| KeySSIMixin.KeySSI.LoadSegments | lib/KeySSIs/KeySSIMixin.js:55-70 | after the split, the fields take positions 1 to 5; an empty version keeps the old vn; the remaining segments, rejoined, become the hint, and the hint object is rebuilt only for JSON-looking hints |
| KeySSIMixin.KeySSI.Cast | lib/KeySSIs/KeySSIMixin.js:198-203 | `getTypeName` is rebound to the new type, then `load` runs again with the new type and the current domain, specific, control, vn and hint |
| KeySSIMixin.KeySSI.SetCanSign | lib/KeySSIs/KeySSIMixin.js:209-211 | only the signing flag changes, and it takes the given value |
| KeySSIMixin.KeySSI.Clone | lib/KeySSIs/KeySSIMixin.js:181-191 | the clone is a newly allocated object in the initial state; the original is untouched |
| KeySSIProperties.JoinAppend | lib/KeySSIs/KeySSIMixin.js:171 | joining pieces plus one more piece equals the join of the pieces, then ":", then that piece |
| KeySSIProperties.NoHintIdentifierIsJoin | lib/KeySSIs/KeySSIMixin.js:162-165 | `getNoHintIdentifier(true)` is exactly `ssi`, type, domain, specific, control and vn joined by ":", with `undefined` written out for a missing field |
| KeySSIProperties.IdentifierAddsHint | lib/KeySSIs/KeySSIMixin.js:162-175 | the no-hint identifier does not depend on the hint, the hint object or the signing flag; `getIdentifier(true)` equals it exactly when the hint is undefined, and otherwise adds ":" and the hint |
| KeySSIProperties.SplitIdentifier | lib/KeySSIs/KeySSIMixin.js:162-175 | for colon-free fields, the identifier splits into the six no-hint segments followed by the split hint |
| KeySSIProperties.PlainRoundTrip | lib/KeySSIs/KeySSIMixin.js:55-70 | `autoLoad(getIdentifier(true))` on a fresh object succeeds and restores type, domain, specific, control, vn and hint, even when the hint holds colons; the fields must be colon-free and vn non-empty |
| KeySSIProperties.EncodedRoundTrip | lib/KeySSIs/KeySSIMixin.js:46-53 | for a colon-free, decodable base58 codec, `autoLoad` of the encoded identifier decodes it first and then behaves as the plain round trip |
| KeySSIProperties.AutoLoadRejects | lib/KeySSIs/KeySSIMixin.js:36-53 | `autoLoad(undefined)` changes nothing and a non-string throws; a string throws exactly when it has no colon and does not decode to a text with a colon ("Wrong format of SSI" when it decodes to one without) |
| KeySSIProperties.AutoLoadVersionAndHintObject | lib/KeySSIs/KeySSIMixin.js:61-70 | an empty version segment keeps vn; any other segment replaces it, and a missing one sets it to undefined; the hint is kept when there are at most six segments; the hint object changes only for a hint starting with `{` or `[` |
| KeySSIProperties.AutoLoadTemplate | lib/KeySSIs/KeySSIMixin.js:253-259 | after `autoLoad`, `isTemplate()` holds exactly when the text had at most three segments |
| KeySSIProperties.TemplateIdentifierLoadsAsNonTemplate | lib/KeySSIs/KeySSIMixin.js:162-163 | a template's identifier writes out "undefined" for the specific and control strings; loading it back yields those strings, so the result is not a template |
| KeySSIProperties.LoadSetsFields | lib/KeySSIs/KeySSIMixin.js:80-93 | `load` sets all six fields and leaves the type accessor and signing flag alone; a falsy vn becomes "v0"; a truthy hint becomes the parsed hint object, or `{value: hint}` when parsing fails, and that fallback leaves the bricks domain at the domain |
| KeySSIProperties.LoadNullHintBreaksBricksDomain | lib/KeySSIs/KeySSIMixin.js:177-179 | after `load` with the hint "null", `getBricksDomain` throws; no `autoLoad` can cause that |
| KeySSIProperties.BricksDomainFallsBack | lib/KeySSIs/KeySSIMixin.js:177-179 | when the hint object has no truthy `bricksDomain` entry, the result is the raw domain; on a fresh object it is undefined |
| KeySSIProperties.DomainResolvedWhenRead | lib/KeySSIs/KeySSIMixin.js:133-143 | a `$NAME` domain passes through the text form unchanged, and it is resolved against the environment only when read |
| KeySSIProperties.CastKeepsMaterial | lib/KeySSIs/KeySSIMixin.js:198-203 | after `cast(t)` the type name is `t`; domain, specific, control and hint are unchanged; a non-empty vn is unchanged and a falsy one becomes "v0"; when vn is non-empty, the no-hint identifier differs only in its type segment |
| KeySSIProperties.CastIsSticky | lib/KeySSIs/KeySSIMixin.js:199-201 | after `cast(t)`, every later successful `autoLoad` leaves the type name at `t` |
| KeySSIProperties.NameIgnoresCast | lib/KeySSIs/KeySSIMixin.js:124-127 | after `cast(t)`, an `autoLoad` of `ssi:<x>:...` sets the field `getName()` returns to `x`, while `getTypeName()` stays `t` |
| KeySSIProperties.CloneIsIndependent | lib/KeySSIs/KeySSIMixin.js:181-191 | loading a hint into a clone leaves the original's state unchanged |
| KeySSIProperties.AnchorValueOutcome | lib/KeySSIs/KeySSIMixin.js:276-283 | a signing error is passed on as the result and no record is built; on success the record is (bricks domain, hash, timestamp, signature, vn, hint) |
| KeySSIProperties.AnchorPayloadLayout | lib/KeySSIs/KeySSIMixin.js:270-275 | the signed payload is anchor id, hash and previous identifier (empty for the first anchor) followed by the timestamp's digits; the timestamp reads back from them |
| KeySSIProperties.AnchorChainLinks | lib/KeySSIs/KeySSIMixin.js:266-283 | with anchor id, hash and timestamp fixed, two payloads are equal exactly when their previous identifiers are; a non-empty previous identifier never gives the first anchor's payload; a built record's signature is the signer's answer for `anchorId + hash + previousIdentifier + timestamp` |
| DIDAlias.UrlPathSucceedsIff | lib/DID/ZKDID.js:21-42 | with a truthy URL, construction succeeds exactly when the URL parses with prefix `did`, type `alias` and exactly two non-empty segments |
| DIDAlias.ZKDID.constructor | lib/DID/ZKDID.js:13-16 | alias and dlDomain are read from the options object; missing or null options give undefined for both |
| DIDAlias.ZKDID.RestoreFromUrl | lib/DID/ZKDID.js:21-42 | for a `did:alias` URL with valid segments, dlDomain is the first segment and alias the last; otherwise it throws and nothing is set |
| DIDAlias.ZKDID.Initialize | lib/DID/ZKDID.js:55-67 | a truthy URL restores both fields from it; otherwise a falsy alias is replaced by the generated one, and a falsy dlDomain throws "Missing the DLDomain" |
| DIDAlias.NewZKDID | lib/DID/ZKDID.js:6-69 | construction returns a new object holding `Construct`'s fields exactly when `Construct` succeeds, and otherwise throws `Construct`'s error |
| DIDAlias.ConstructedIsComplete | lib/DID/ZKDID.js:55-67 | every constructed DID has a non-empty domain and a defined alias |
| DIDAlias.ObjectFirstArgumentIsOptions | lib/DID/ZKDID.js:7-10 | an object first argument is used as the options and the URL counts as absent; a null first argument leaves no domain, so construction throws |
| DIDAlias.UrlOverridesOptions | lib/DID/ZKDID.js:56-58 | with a truthy URL the outcome depends only on the URL: domain is the first segment, alias the last, whatever the options and generated alias are, and no missing-domain check runs |
| DIDAlias.OptionsPath | lib/DID/ZKDID.js:60-66 | without a URL, construction fails exactly when dlDomain is falsy; a truthy alias is kept and a falsy one is replaced by the generated alias; an empty URL counts as absent |
| DIDAlias.ParseThenToUrl | lib/DID/ZKDID.js:81-92 | if the codec rebuilds what it parses, `toUrl()` of a DID built from a URL gives back that URL |
| DIDAlias.ToUrlThenParse | lib/DID/ZKDID.js:81-92 | if the codec parses what it builds from colon-free parts, `toUrl()` of a colon-free domain and alias is read back into the same domain and alias |
| DIDAlias.ColonDomainDoesNotReadBack | lib/DID/ZKDID.js:55-92 | a domain `d1:d2` is accepted without a URL, but under the colon-delimited codec the URL `toUrl()` writes for it has three segments and construction from it throws |

The remaining members are plain reads. These are `getTypeName`, `getNoHintIdentifier`, `getIdentifier`, `toJSON`, `getDLDomain`, `getBricksDomain`, `isTemplate`, `canSign`, `createAnchorValue`, `getName`, `getSpecificString`, `getControlString`, `getHint` and `getVn` (lib/KeySSIs/KeySSIMixin.js:120-155), and the DID's `getAlias`, `getDLDomain` and `toUrl`. Each is a class function that applies one of the specification functions above to the current state. The flags `canBeVerified`, `canAppend`, `isTransfer` and `isAlias` (lib/KeySSIs/KeySSIMixin.js:213-251) are the constants `false`, `true`, `false` and `false`, written as class functions with no contract.

## Left out

- The length guard `validateKeySSICharLength` (lib/KeySSIs/KeySSIMixin.js:74-78) is not modelled. It compares the encoded identifier string with the number 2048, not its length, and in `autoLoad` it runs before the new fields are parsed. The model assumes it never throws.
- `getDerivedType`, `getRootKeySSITypeName`, `getAnchorId`, `getDSURepresentationName`, `sign`, `verify` and `hash` hand their work to the KeySSI factory, the crypto registry or the security context, and those are not part of this model. `getAnchorId(true)` is an input of `createAnchorValue`, and the signer is a function from payload to outcome.
- `getRelatedType` logs a deprecation notice and forwards to `getDerivedType`. The notice is not modelled. `getName` also logs one, which is not modelled, and then returns the raw `_subtype`. After a cast that can differ from `getTypeName()`.
- `createAnchorValue` turns a previous value given as a string into a KeySSI through the factory. The model takes the previous anchor's plain identifier, or none, as input. Callbacks and their asynchrony are not modelled: a result `Ok` or `Err(SigningError)` is the value passed to the caller's callback. `Err(BricksDomainThrows)` is different: `getBricksDomain()` throws inside the signer's callback (lib/KeySSIs/KeySSIMixin.js:281), the caller's callback is never called, and the exception escapes into the signer. A falsy signing error is not modelled either.
- The signed-hash-link KeySSI that `initialize` fills in is not modelled. The anchor record is the six values passed to it.
- JSON numbers are integers. Floating point is not modelled.
- A field holding JavaScript `null` is not modelled: every field is a string or `undefined`. With `null` the code behaves differently. `isTemplate()` is false, because `typeof null` is "object". The identifier holds the text "null". A `null` hint appends ":null". `getDLDomain()` throws on `null.startsWith`.
- DIDAlias.ToUrlThenParse: the round trip is promised only for a colon-free domain and alias. The options path accepts a domain holding a colon, and `ColonDomainDoesNotReadBack` shows that `toUrl()` of such a DID does not read back under a colon-delimited codec.
- `clone()` also copies the original's own non-mixin properties. It copies only own properties: `clone.prototype = target.prototype` sets a plain property that is `undefined` on an instance, so methods on the original's prototype are not carried over. It also does not pass the enclave on. Neither is modelled: the clone is only its mixin state.
- `generateAlias` (lib/DID/ZKDID.js:44-53) draws random bytes and hashes them. It is not modelled: the alias it would produce is an input string.
- `DIDUrl` is not part of this model. Its parser and printer are abstract functions, and a URL that parses with the wrong prefix or type, or with segments the validator rejects, counts as a thrown error.
- Strings are sequences of characters. `pskBase58Decode(...).toString()` is folded into the abstract decoder.

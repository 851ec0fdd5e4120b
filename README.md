# qbit-rust core, modelled in Dafny

qbit-rust is a client for the qBittorrent Web API. This project models the
client's decision and data-shaping logic and proves properties of it:

- **Adding torrents** (`add_torrent.dfy`, `torrents.dfy`, `sep_vec.dfy`):
  - A torrent source is either a URL (or magnet link) or the path of a `.torrent` file.
  - The builder `TorrentAddDescriptorBuilder` collects the sources and fifteen optional parameters.
  - `build` rejects a builder with no sources. Otherwise it splits the sources into URLs and file paths, keeping their order, and joins the tags with commas.
  - `thing` turns the options that are set into text fields, in a fixed order.
  - `Api::add_torrent` sends exactly one request: the files if there are any paths, otherwise the URLs followed by the option fields, otherwise nothing.
- **Session cookie** (`cookie.dfy`, `api.dfy`):
  - A login response is classified by its status and its `set-cookie` header.
  - The session id is cut out of that header.
  - A cookie counts as expired 3540 seconds after it was made. `reset` keeps a live cookie and logs in again otherwise.
  - The `Api` object trims trailing characters off its authority. Its `get_cookie` method renews the stored cookie in place.
- **Errors** (`errors.dfy`): the nested `Error` tree, the flat `FlatError` enum, the mappings between them, and the lifting of those mappings to `Result`.

`common.dfy` holds `Option`, `Result`, the byte type, and the parts of Rust's
string library the client relies on: one-character `split`, `join`, and the
decimal rendering of numbers and booleans.

The network and the file system are inputs to the model, not effects it performs:

- a login yields a `LoginOutcome`: the response (its status and its first `set-cookie` header as bytes), or the transport's failure text;
- a send yields a `SendOutcome`: a status code, or the failure text;
- the readable `.torrent` files are a map from path to contents;
- the monotonic clock is a reading in whole seconds, passed as `now`.

`get_cookie` and `add_torrent` change the `cookie` field of an `Api` object. They are
methods with `modifies` frames. `build`, `thing` and the file-reading loop of
`add_torrent` are methods with loops or step-by-step updates, each proved
against a specification function. Everything else is a pure function.

## Model

| member | source | states |
|---|---|---|
| Strings.Split | src/auth/cookie.rs:31 | `split` on one character gives at least one piece, and no piece holds the separator |
| Strings.SplitFirstPiece | src/auth/cookie.rs:31 | the first piece is the longest prefix without the separator; it is the whole text exactly when the separator is absent; otherwise the remaining pieces are the split of the text after the first separator |
| Strings.SplitCount | src/auth/cookie.rs:31 | a split has more than one piece exactly when the separator occurs, so indexing piece 1 needs an `=` in the header |
| Strings.JoinSplit | src/api_fns/torrents/add_torrent.rs:184 | joining the pieces of a split with the separator gives the text back |
| Strings.SplitJoin | src/api_fns/torrents/add_torrent.rs:184 | splitting a join on the separator gives the parts back when no part contains it |
| Strings.NatToString | src/api_fns/torrents/add_torrent.rs:403-409 | `to_string` of an unsigned number is a non-empty string of decimal digits that starts with `0` only for zero |
| Strings.ParseNatToString | src/auth/cookie.rs:43 | reading back the decimal rendering of a number gives the number |
| Strings.BoolToString | src/api_fns/torrents/add_torrent.rs:387-393 | `to_string` of a bool is `true` exactly for true and `false` otherwise |
| ErrorHandling.AuthErrors.ErrMessage | src/auth/errors.rs:9-15 | a miscellaneous auth error's message is its own text; the two other variants have fixed, non-empty messages |
| ErrorHandling.MiscErrors.ErrMessage | src/misc/errors.rs:7-12 | the message is a non-empty prefix naming the kind of failure, followed by the error's text |
| ErrorHandling.TorrentErrors.ErrMessage | src/api_fns/torrents/errors.rs:7-12 | each variant has a fixed, non-empty message |
| ErrorHandling.ApiErrors.ErrMessage | src/api_fns/errors.rs:8-12 | the wrapped torrent error's message, which is never empty |
| ErrorHandling.Error.ErrMessage | src/error_handling/errors.rs:13-25 | a leaf that carries a text has a message ending in that text; any other leaf has a non-empty message; `RoundTripMessage` says what a round trip through the flat form does to it |
| ErrorHandling.FlattenErr | src/error_handling/errors.rs:27-45 | each leaf error goes to the flat variant of the same name (auth `MiscError` becomes `MiscAuthError`), with its text unchanged |
| ErrorHandling.UnflattenErr | src/error_handling/flat_error.rs:20-38 | each flat variant goes back under its layer with its text unchanged, except that `JsonSerdeError` becomes the misc `ReqwestError` |
| ErrorHandling.LeafDetermines | src/error_handling/errors.rs:6-10 | the name and text of the leaf variant determine the whole nested error |
| ErrorHandling.FlattenInjective | src/error_handling/errors.rs:27-45 | distinct errors flatten to distinct flat errors |
| ErrorHandling.FlattenUnflatten | src/error_handling/flat_error.rs:34-35 | flattening an unflattened error gives it back, except that `JsonSerdeError(s)` comes back as `ReqwestError(s)` |
| ErrorHandling.UnflattenFlatten | src/error_handling/flat_error.rs:35 | unflattening a flattened error gives it back, except that misc `JsonSerdeError(s)` comes back as misc `ReqwestError(s)` |
| ErrorHandling.UnflattenMissesJsonSerde | src/error_handling/flat_error.rs:34-35 | no flat error unflattens to a misc `JsonSerdeError` |
| ErrorHandling.RoundTripMessage | src/error_handling/errors.rs:13-25 | a round trip through the flat form keeps the error's message, except that a serialization error is then reported with the request-error text |
| ErrorHandling.FlattenResult | src/error_handling/errors.rs:52-59 | `Ok` stays `Ok` with the same value, and `Err(e)` becomes `Err(flatten_err(e))` |
| ErrorHandling.UnflattenResult | src/error_handling/errors.rs:65-72 | `Ok` stays `Ok` with the same value, and `Err(f)` becomes `Err(unflatten_err(f))` |
| ErrorHandling.ResultRoundTrip | src/error_handling/errors.rs:52-72 | lifting both ways returns the same result, except for a misc `JsonSerdeError` error |
| Torrents.New | src/api_fns/torrents/torrents.rs:27-33 | a `Url` request stores `Url(s)` and a `TorrentFile` request stores `RawTorrent(s)`, with `s` unchanged |
| Torrents.GetInner | src/api_fns/torrents/torrents.rs:35-37 | `new`, given the returned source's text and its kind, rebuilds the torrent |
| Torrents.GetType | src/api_fns/torrents/torrents.rs:39-44 | the reported kind is `Url` exactly when the stored source is a URL |
| Torrents.NewThenGet | src/api_fns/torrents/torrents.rs:27-44 | a new torrent reports the kind it was made with, and `get_inner` gives back its text |
| Torrents.GetThenNew | src/api_fns/torrents/torrents.rs:27-44 | every torrent is the one `new` makes from its own text and kind |
| AuthCookie.HeaderToStr | src/auth/cookie.rs:28 | a header is text exactly when every byte is visible ASCII or a tab, and the text has the same characters |
| AuthCookie.ExtractToken | src/auth/cookie.rs:31 | the token holds neither `=` nor `;`, and it is the text right after the first `=`, up to the next `=` or `;` or the end of the header |
| AuthCookie.TokenOfPair | src/auth/cookie.rs:31 | a header `name=value;rest`, whose name has no `=` and whose value has neither `=` nor `;`, gives the token `value` |
| AuthCookie.TokenExample | src/auth/cookie.rs:31 | `SID=abc123; path=/` gives the token `abc123` |
| AuthCookie.StatusMessage | src/auth/cookie.rs:43 | the message is the fixed prefix followed by decimal digits that read back as the status |
| AuthCookie.NewCookie | src/auth/cookie.rs:14-45 | a transport failure is a misc `ReqwestError` with its text; success with a text header gives a cookie made at `now` holding the extracted token; success without one gives `WrongCreds`; 403 gives `TooManyFailedAttempts`; any other status gives an auth `MiscError` with the status in its text; each of these holds in both directions |
| AuthCookie.IsExpired | src/auth/cookie.rs:55-61 | a cookie is expired exactly when at least 3540 seconds have passed since it was made |
| AuthCookie.ExpiryBoundary | src/auth/cookie.rs:55-61 | a cookie is live 3539 seconds after creation and expired at 3540 |
| AuthCookie.ExpiryIsMonotonic | src/auth/cookie.rs:55-61 | once expired, a cookie stays expired at every later reading |
| AuthCookie.Reset | src/auth/cookie.rs:64-70 | a live cookie is returned as it is; an expired one is replaced by the outcome of a fresh login |
| AuthCookie.ResetConsultsNoServer | src/auth/cookie.rs:64-70 | for a live cookie the result does not depend on what the server would answer |
| AuthCookie.ResetGivesLiveCookie | src/auth/cookie.rs:64-70 | any cookie `reset` returns is live at the moment it was asked for |
| AuthCookie.ResetTwice | src/auth/cookie.rs:64-70 | a second reset within the lifetime of the cookie the first one returned keeps that cookie |
| Misc.SepVec.ToString | src/api_fns/torrents/add_torrent.rs:344 | an empty list renders as the empty string; otherwise the rendering starts with the first entry and is as long as the entries plus one separator between each pair of neighbours (`SplitRecoversEntries` gives the round trip) |
| Misc.EmptySeparatorConcatenates | src/api_fns/torrents/add_torrent.rs:174 | the URL list, rendered with the empty separator, is its entries concatenated |
| Misc.SplitRecoversEntries | src/api_fns/torrents/add_torrent.rs:184 | tags rendered with `,` split back into the tags when no tag contains a comma |
| Misc.TagsExample | src/api_fns/torrents/tests.rs:18 | the tags `action`, `comedy` render as `action,comedy` |
| AuthApi.TrimAuthority | src/auth/api.rs:25 | the trimmed authority is a prefix of the input; only characters whose low byte is 47 were removed; it does not end in such a character |
| AuthApi.TrimIsUnique | src/auth/api.rs:25 | only one prefix has those three properties |
| AuthApi.TrimIdempotent | src/auth/api.rs:25 | trimming twice gives the same as trimming once |
| AuthApi.TrimAllTrimmed | src/auth/api.rs:25 | an authority made only of such characters trims to the empty string |
| AuthApi.TrimExample | src/auth/api.rs:66 | `http://localhost:6011///////` trims to `http://localhost:6011` |
| AuthApi.TrimLowByteExample | src/auth/api.rs:25 | a trailing U+012F is trimmed like a slash, because only its low byte is compared |
| AuthApi.Api.Init | src/auth/api.rs:29-34 | the new object holds the given authority, cookie and credentials |
| AuthApi.Api.New | src/auth/api.rs:19-35 | a failed login is the result; otherwise a fresh object holds the trimmed authority, the new cookie and the credentials |
| AuthApi.Api.GetCookie | src/auth/api.rs:37-44 | the stored cookie becomes the result of `reset` and its token is returned; a failed login is returned and the stored cookie is kept; a live cookie is kept and its token returned; authority and credentials never change |
| AddTorrent.Builder.WithTorrents | src/api_fns/torrents/add_torrent.rs:210-213 | the sources are set and every other field is unchanged |
| AddTorrent.Builder.WithSavepath | src/api_fns/torrents/add_torrent.rs:216-219 | `savepath` is set and every other field is unchanged |
| AddTorrent.Builder.WithCookie | src/api_fns/torrents/add_torrent.rs:221-224 | `cookie` is set and every other field is unchanged |
| AddTorrent.Builder.WithCategory | src/api_fns/torrents/add_torrent.rs:227-230 | `category` is set and every other field is unchanged |
| AddTorrent.Builder.WithTags | src/api_fns/torrents/add_torrent.rs:233-236 | `tags` is set and every other field is unchanged |
| AddTorrent.Builder.WithSkipChecking | src/api_fns/torrents/add_torrent.rs:239-242 | `skip_checking` is set and every other field is unchanged |
| AddTorrent.Builder.WithPaused | src/api_fns/torrents/add_torrent.rs:245-248 | `paused` is set and every other field is unchanged |
| AddTorrent.Builder.WithRootFolder | src/api_fns/torrents/add_torrent.rs:251-254 | `root_folder` is set and every other field is unchanged |
| AddTorrent.Builder.WithRename | src/api_fns/torrents/add_torrent.rs:257-260 | `rename` is set and every other field is unchanged |
| AddTorrent.Builder.WithUpLimit | src/api_fns/torrents/add_torrent.rs:263-266 | `up_limit` is set and every other field is unchanged |
| AddTorrent.Builder.WithDlLimit | src/api_fns/torrents/add_torrent.rs:269-272 | `dl_limit` is set and every other field is unchanged |
| AddTorrent.Builder.WithRatioLimit | src/api_fns/torrents/add_torrent.rs:275-278 | `ratio_limit` is set and every other field is unchanged |
| AddTorrent.Builder.WithSeedingTimeLimit | src/api_fns/torrents/add_torrent.rs:281-284 | `seeding_time_limit` is set and every other field is unchanged |
| AddTorrent.Builder.WithAutoTmm | src/api_fns/torrents/add_torrent.rs:287-290 | `auto_tmm` is set and every other field is unchanged |
| AddTorrent.Builder.WithSequentialDownload | src/api_fns/torrents/add_torrent.rs:293-296 | `sequential_download` is set and every other field is unchanged |
| AddTorrent.Builder.WithFirstLastPiecePrio | src/api_fns/torrents/add_torrent.rs:299-302 | `first_last_piece_prio` is set and every other field is unchanged |
| AddTorrent.NewBuilder | src/api_fns/torrents/add_torrent.rs:126-145 | a fresh builder has no sources and no option set |
| AddTorrent.SettersOverwrite | src/api_fns/torrents/add_torrent.rs:210-302 | setting a field twice is the same as setting it once to the second value |
| AddTorrent.PartitionAppend | src/api_fns/torrents/add_torrent.rs:160-172 | the URLs and paths of two lists of sources joined are those of the first list followed by those of the second |
| AddTorrent.PartitionIsComplete | src/api_fns/torrents/add_torrent.rs:160-174 | the sources are, as a multiset, exactly the URLs as URL sources plus the paths as file sources, and the two lengths add up to the number of sources |
| AddTorrent.UrlsOfHas | src/api_fns/torrents/add_torrent.rs:163-167 | a URL is among the URLs exactly when it is among the sources |
| AddTorrent.PathsOfHas | src/api_fns/torrents/add_torrent.rs:163-171 | a path is among the paths exactly when it is among the sources as a file |
| AddTorrent.Built | src/api_fns/torrents/add_torrent.rs:152-205 | the result is `TorrentsNotSet` exactly when the sources are unset or empty; otherwise the numbers of URLs and paths add up to the number of sources (`BuiltPartitions` and `BuiltOptions` give the contents) |
| AddTorrent.Build | src/api_fns/torrents/add_torrent.rs:152-205 | fails with `TorrentsNotSet` exactly when the sources are unset or empty; otherwise the loop yields the in-order URLs and paths, as specified by `Built` |
| AddTorrent.BuiltPartitions | src/api_fns/torrents/add_torrent.rs:160-174 | a built descriptor has the in-order URLs (empty separator) and paths, which together are the sources up to order, and at least one of them |
| AddTorrent.BuiltOptions | src/api_fns/torrents/add_torrent.rs:184-204 | the tags are set exactly when the builder had tags, kept as given and rendered comma-joined; every other option is copied |
| AddTorrent.OptionFields | src/api_fns/torrents/add_torrent.rs:370-431 | `thing` adds at most fifteen fields, all of them text fields; `OptionFieldPresent`, `OptionFieldNames` and `OptionFieldsOrdered` give which ones and in what order |
| AddTorrent.OptionFieldPresent | src/api_fns/torrents/add_torrent.rs:370-431 | the field of option `k` is present with value `v` exactly when option `k` is set and its text is `v` |
| AddTorrent.OptionFieldNames | src/api_fns/torrents/add_torrent.rs:370-431 | only the fifteen option names occur |
| AddTorrent.OptionFieldsOrdered | src/api_fns/torrents/add_torrent.rs:370-431 | the fields come in the fixed option order, so no name occurs twice |
| AddTorrent.NoOptionFields | src/api_fns/torrents/add_torrent.rs:370-431 | a descriptor without options adds no field |
| AddTorrent.OnlyTagsGiveOneField | src/api_fns/torrents/add_torrent.rs:383-385 | a descriptor whose only option is its tags adds just the `tags` field |
| AddTorrent.AppendIfSet | src/api_fns/torrents/add_torrent.rs:371-373 | the form gains the named field exactly when the value is set |
| AddTorrent.Thing | src/api_fns/torrents/add_torrent.rs:370-432 | the form is the given one followed by the option fields (see the option-field lemmas) |
| AddTorrent.NewDescriptor | src/api_fns/torrents/add_torrent.rs:67-69 | the descriptor is what `build` makes from the sources alone: in-order URLs and paths, and no option field |
| AddTorrent.FileForm | src/api_fns/torrents/add_torrent.rs:310-322 | there is a form exactly when every path can be read, with one `torrents` part per path, in order, holding that file's contents |
| AddTorrent.Submission | src/api_fns/torrents/add_torrent.rs:308-366 | a file error exactly when some path cannot be read; otherwise a file upload exactly when there are paths, a URL upload exactly when there are URLs and no paths, and no request exactly when there are no sources |
| AddTorrent.FilesTakePrecedence | src/api_fns/torrents/add_torrent.rs:308-338 | with paths, the result is `TorrentFilePathError` exactly when some path cannot be read; otherwise only the file parts are sent, one per path |
| AddTorrent.UrlsWithoutFiles | src/api_fns/torrents/add_torrent.rs:341-346 | without paths but with URLs, the form is the `urls` field first, then the option fields |
| AddTorrent.NothingToSend | src/api_fns/torrents/add_torrent.rs:366 | without paths and URLs no request is made |
| AddTorrent.BuiltAlwaysSubmits | src/api_fns/torrents/add_torrent.rs:152-205 | a descriptor from `build` always leads to a request or to a file error, never to doing nothing |
| AddTorrent.MixedSourcesDropUrls | src/api_fns/torrents/add_torrent.rs:308-339 | with sources of both kinds the URLs are dropped and only files are sent (or the file error returned) |
| AddTorrent.OneFileSubmission | src/api_fns/torrents/add_torrent.rs:308-322 | a descriptor whose only path can be read sends that file's part and nothing else |
| AddTorrent.MagnetExample | src/api_fns/torrents/add_torrent.rs:341-346 | one magnet link with tags `a`, `b` gives exactly the fields `urls` and `tags=a,b` |
| AddTorrent.FullBuilderExample | src/api_fns/torrents/tests.rs:10-31 | the test's builder gives URL `aaaaaa`, path `/home/arch/hiiiii` and tags `action,comedy`, and sends only the file |
| AddTorrent.Verdict | src/api_fns/torrents/add_torrent.rs:331-337 | the call succeeds exactly when the send returned a success status; every failure is a misc `ReqwestError` |
| AddTorrent.AddTorrentTo | src/api_fns/torrents/add_torrent.rs:306-367 | a file error or no request leaves the cookie alone and sends nothing; otherwise the cookie is renewed as `get_cookie` does, a failed login sends nothing, and the request is the endpoint, `SID=` and the token, and the form |

## Left out

- The HTTP layer is not modelled: the reqwest client, the login request's URL, referer and form body, and the multipart byte encoding. Their outcomes are inputs.
- Only the first `set-cookie` header is looked at, as `HeaderMap::get` does.
- Reading a `.torrent` file is modelled as a lookup in a map from path to contents. A failed open and a failed `read_to_end` are one case: the path is absent from the map.
- `Instant::now` and `elapsed` are a reading in whole seconds passed in as `now`. A reading earlier than the creation time counts as no time elapsed.
- `println!` calls are not modelled.
- The ratio limit (`f32`) is held as the text it renders to, because floating-point formatting is not modelled. The model only decides whether the `ratioLimit` field is present.
- src/misc/sep_vec.rs is not part of this model. Rendering a `SepVec` is taken to be joining its entries with its separator. A `char` separator is held as a one-character string.
- src/auth/creds.rs is not part of this model. `Credentials` is a plain pair of strings.
- src/api_fns/application/app.rs and src/misc/convenience_fns.rs are left out. They hold thin request wrappers and an unimplemented stub.
- Concurrency and `async` scheduling are left out.
- AuthCookie.NewCookie: a successful login whose header is text without `=` panics in the source, because it indexes past the end of the split. The model requires `Extractable(login)`, which excludes that input.
- AuthCookie.Reset: carries the same requirement as `NewCookie`, whenever the cookie has expired.
- AuthApi.Api.New: carries the same requirement as `NewCookie`.
- AuthApi.Api.GetCookie: carries the same requirement as `NewCookie`, whenever the cookie has expired.
- AddTorrent.AddTorrentTo: carries the same requirement as `NewCookie`, whenever the cookie has expired and a request is about to be sent. `Api::add_torrent` is modelled as a method of the module that takes the `Api` object, rather than as a member of the class.
- AddTorrent.NewDescriptor: `TorrentAddDescriptor::new` unwraps the result of `build`, so an empty list of sources panics in the source. The model requires a non-empty list.

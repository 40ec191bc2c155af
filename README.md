# jsonrpc4j in Dafny

A model of the JSON-RPC 2.0 protocol logic of jsonrpc4j, with proofs about it.
Three generations of the library sit side by side, and each is modelled:

- **The Jackson line.**
  - `JsonRpcServer` reads a request object or a batch array, filters the handler's methods by name and arity, binds parameters by position or by `@JsonRpcParamName`, maps failures to error objects, and writes the response.
  - `JsonRpcClient` writes requests and notifications and classifies a response as an error, a result or nothing.
  - `JacksonJsonEngine` validates requests and reads their members.
  - `ReflectionUtil` memoises reflective lookups.
  - `AnnotationsErrorResolver` applies the first matching `@JsonRpcError` mapping.
- **The Spring line.**
  - `JsonServiceExporter` answers each request with a `JsonRpcResponse` record and writes one response, a batch array or nothing.
  - `Assertions` raise `JsonServiceException`s, which the exporter turns into errors with the negated code.
- **The org.json binding.**
  - `JSONUtil` keeps a registry of `TypeConverter`s, where the most recently registered converter wins. Its `toJSON` refuses values nested deeper than `MAX_OBJECT_DEPTH_LEVEL`, and its `fromJSON` reads values back.
  - `JsonOrgJsonEngine` builds requests and reads responses on top of it.
- **The trunk line, over json-lib.**
  - `JsonRpcUtils` finds candidate methods and binds their parameters.
  - `JsonUtils` and the trunk `JacksonJsonEngine` validate requests.
  - `JsonRpcReader` reads single requests and flattens batches.
  - The strict or lax `JsonServiceExporter` handles one HTTP request.
- **The browser client `jsonrpc.js`.** It keeps an id counter, builds call and notification requests for a pluggable Ajax hook, and dispatches a response by JavaScript truthiness.

## How the model is organised

Each source file of the core is one Dafny module. The modules share these foundations:

- `Common`: Java strings, `trim` and decimal text.
- `JsonTree`: Jackson's `JsonNode` tree.
- `Failures`: throwables, and `Result` for a call that throws.
- `JavaModel`: classes, methods, annotations and runtime values.
- `RequestValidation`: the request check that both Jackson engines and `JsonUtils` share.

The code's own form is kept:

- Objects whose fields change are classes:
  - the server and the exporters;
  - the response record;
  - the reflection caches;
  - the converter registry;
  - the `JSONRPC` object of `jsonrpc.js`.
- Loops are methods with invariants. Each method is proved equal to a specification function, and the lemmas about that function state what the source promises.
- Code that only computes is made of functions and lemmas.

Several parts of the system are outside the model and enter it as values:

- **The JSON codec and the service handler.** The function-valued datatypes `Codec`, `Handler`, `Service`, `ToBean` and `Platform` stand in for:
  - Jackson data binding;
  - json-lib's `toBean`;
  - `Method.invoke` on the handler;
  - org.json's text output and quoting;
  - date formatting and URL parsing.
- **The iteration order of a `HashSet`.** It is a chooser that picks some member of a non-empty set (`HashOrder`).
- **Request ids.** Ids drawn from `Random` or `UUID` are parameters.

Where the code and the JSON-RPC 2.0 specification disagree, the model follows the code:

- `JsonRpcServer` writes the responses to a batch as separate JSON values, not as one array.
- `JsonRpcServer` also answers a notification that is an invalid request, names an unknown method or has unusable parameters with an error.
- `JsonOrgJsonEngine` drops a named argument whose converted value is null, because org.json's `put` removes the key (`JsonOrgEngine.NamedRequestCount`).
- `JsonOrgJsonEngine` cannot decode an error object without `data`, although the specification makes `data` optional (`JsonOrgEngine.ErrorWithoutDataRejected`).
- The trunk `JacksonJsonEngine.writeJson` validates every object as a request, so it refuses to write a response object (`TrunkJacksonEngine.ResponseRefused`).
- `jsonrpc.js` treats a falsy `result` (0, false, "") as no result (`JsonRpcJs.FalsyResultIsDropped`).

The org.json library is modelled with these assumptions:

- `put(key, null)` removes the key.
- `get` of a missing key throws `JSONException`.
- `getString` is `get(key).toString()`.
- `JSONArray.get` of a stored null throws.
- The properties of `JsonRpcError` are discovered in the order code, message, data.

The request body of `jsonrpc.js` is written as `JSON.stringify` writes it:

- members that are undefined or functions are left out;
- such array entries become null.

## Model

| member | source | states |
|---|---|---|
| Assertions.IsTrue | jsonrpc4j/src/main/java/com/googlecode/jsonrpc4j/spring/Assertions.java:7-12 | succeeds exactly when the condition holds; otherwise raises a service exception carrying the given code, message and data |
| Assertions.IsTrueWithMessage | jsonrpc4j/src/main/java/com/googlecode/jsonrpc4j/spring/Assertions.java:14-17 | succeeds iff the condition holds; otherwise the given code and message with no data |
| Assertions.IsTrueWithCode | jsonrpc4j/src/main/java/com/googlecode/jsonrpc4j/spring/Assertions.java:19-22 | succeeds iff the condition holds; otherwise the given code with no message and no data |
| Assertions.IsTrueGeneric | jsonrpc4j/src/main/java/com/googlecode/jsonrpc4j/spring/Assertions.java:24-27 | succeeds iff the condition holds; otherwise the generic code 500 with the message |
| Assertions.IsFalse | jsonrpc4j/src/main/java/com/googlecode/jsonrpc4j/spring/Assertions.java:29-32 | succeeds iff the condition is false; otherwise code and message but no data, as written |
| Assertions.IsFalseKeepingData | jsonrpc4j/src/main/java/com/googlecode/jsonrpc4j/spring/Assertions.java:29-32 | corrected `isFalse`: on failure the data argument is carried by the exception |
| Assertions.IsFalseDropsData | jsonrpc4j/src/main/java/com/googlecode/jsonrpc4j/spring/Assertions.java:29-32 | the written `isFalse` and the corrected one differ on a failing call that passes data |
| Assertions.IsFalseWithMessage | jsonrpc4j/src/main/java/com/googlecode/jsonrpc4j/spring/Assertions.java:34-37 | succeeds iff the condition is false; otherwise code and message, no data |
| Assertions.IsFalseWithCode | jsonrpc4j/src/main/java/com/googlecode/jsonrpc4j/spring/Assertions.java:39-42 | succeeds iff the condition is false; otherwise the code alone |
| Assertions.IsFalseGeneric | jsonrpc4j/src/main/java/com/googlecode/jsonrpc4j/spring/Assertions.java:44-47 | succeeds iff the condition is false; otherwise code 500 with the message |
| Assertions.NotNull | jsonrpc4j/src/main/java/com/googlecode/jsonrpc4j/spring/Assertions.java:49-52 | succeeds iff the value is not null; otherwise code and message but no data, as written |
| Assertions.NotNullKeepingData | jsonrpc4j/src/main/java/com/googlecode/jsonrpc4j/spring/Assertions.java:49-52 | corrected `notNull`: on failure the data argument is carried by the exception |
| Assertions.NotNullDropsData | jsonrpc4j/src/main/java/com/googlecode/jsonrpc4j/spring/Assertions.java:49-52 | the written `notNull` and the corrected one differ on a null value with data |
| Assertions.NotNullWithMessage | jsonrpc4j/src/main/java/com/googlecode/jsonrpc4j/spring/Assertions.java:54-57 | succeeds iff the value is not null; otherwise code and message |
| Assertions.NotNullWithCode | jsonrpc4j/src/main/java/com/googlecode/jsonrpc4j/spring/Assertions.java:59-62 | succeeds iff the value is not null; otherwise the code alone |
| Assertions.NotNullGeneric | jsonrpc4j/src/main/java/com/googlecode/jsonrpc4j/spring/Assertions.java:64-67 | succeeds iff the value is not null; otherwise code 500 with the message |
| AnnotationsErrorResolver.ResolveError | jsonrpc4j/src/main/java/com/googlecode/jsonrpc4j/AnnotationsErrorResolver.java:17-33 | a method without `@JsonRpcErrors` resolves nothing; a resolved error has the code and message of a mapping the throwable matches |
| AnnotationsErrorResolver.ResolveErrorSpec | jsonrpc4j/src/main/java/com/googlecode/jsonrpc4j/AnnotationsErrorResolver.java:17-33 | an error is resolved iff the first `@JsonRpcErrors` annotation has a mapping the throwable is an instance of; the error then has the first such mapping's code and message, its data when not blank and the throwable's message otherwise |
| AnnotationsErrorResolver.UnannotatedResolvesNothing | jsonrpc4j/src/main/java/com/googlecode/jsonrpc4j/AnnotationsErrorResolver.java:20-32 | a method without `@JsonRpcErrors` resolves nothing |
| ErrorMappings.FirstMatchIndex | jsonrpc4j/src/main/java/com/googlecode/jsonrpc4j/AnnotationsErrorResolver.java:22-28 | None iff no mapping matches; otherwise the index of a matching mapping with no match before it |
| ErrorMappings.FirstMatch | jsonrpc4j/src/main/java/com/googlecode/jsonrpc4j/AnnotationsErrorResolver.java:22-28 | some mapping is returned iff one matches the throwable; the one returned is in the list and matches |
| ErrorMappings.LaterMappingsIgnored | jsonrpc4j/src/main/java/com/googlecode/jsonrpc4j/AnnotationsErrorResolver.java:22-28 | appending mappings after a matching one does not change the answer |
| Common.BlankIffTrimEmpty | jsonrpc4j/src/main/java/com/googlecode/jsonrpc4j/jackson/JacksonJsonEngine.java:195-197 | `trim()` leaves a string empty exactly when all its characters are at most ' ', the test by which a method name is blank |
| Common.TrimmedEndsAreKept | jsonrpc4j/src/main/java/com/googlecode/jsonrpc4j/AnnotationsErrorResolver.java:24 | a non-empty trimmed string starts and ends with a character above ' ' |
| Common.DecimalRoundTrip | jsonrpc4j/trunk/src/main/java/com/googlecode/jsonrpc4j/JsonRpcUtils.java:163-184 | parsing the decimal text of any integer gives that integer back |
| JsonTree.Get | jsonrpc4j/src/main/java/com/googlecode/jsonrpc4j/jackson/JacksonJsonEngine.java:184-185 | `get(name)` is the member of an object node when present and null otherwise |
| JsonTree.At | jsonrpc4j/src/main/java/com/googlecode/jsonrpc4j/jackson/JacksonJsonEngine.java:216-218 | `get(index)` is the element of an array when in range and null otherwise |
| JsonTree.Size | jsonrpc4j/src/main/java/com/googlecode/jsonrpc4j/jackson/JacksonJsonEngine.java:410 | `size()` counts the elements of an array or members of an object and is 0 for value nodes |
| JsonTree.ValueAsText | jsonrpc4j/src/main/java/com/googlecode/jsonrpc4j/jackson/JacksonJsonEngine.java:306 | `getValueAsText()` is null exactly for containers; a text node gives its text |
| RequestValidation.FirstViolation | jsonrpc4j/src/main/java/com/googlecode/jsonrpc4j/jackson/JacksonJsonEngine.java:173-204 | no violation iff the node is a valid request; otherwise the check that fails first: not an object, then version, then method name |
| RequestValidation.FirstInvalid | jsonrpc4j/src/main/java/com/googlecode/jsonrpc4j/jackson/JacksonJsonEngine.java:209-220 | None iff every element from the position on is a valid request; otherwise the first invalid element's index |
| JacksonEngine.ValidateRpcRequest | jsonrpc4j/src/main/java/com/googlecode/jsonrpc4j/jackson/JacksonJsonEngine.java:173-204 | succeeds iff the node is a valid 2.0 request, returning it unchanged; otherwise a `JsonException` with the message of the first failing check |
| JacksonEngine.ValidateRpcBatchRequest | jsonrpc4j/src/main/java/com/googlecode/jsonrpc4j/jackson/JacksonJsonEngine.java:209-220 | a non-array is refused; an array is returned unchanged iff every element is a valid request, and otherwise fails with the first invalid element's message |
| JacksonEngine.FirstInvalidIs | jsonrpc4j/src/main/java/com/googlecode/jsonrpc4j/jackson/JacksonJsonEngine.java:216-218 | the first invalid element is the invalid one that every earlier element passes |
| JacksonEngine.ReadJson | jsonrpc4j/src/main/java/com/googlecode/jsonrpc4j/jackson/JacksonJsonEngine.java:259-267 | fails iff the input does not parse; a parsed value comes back as that tree |
| JacksonEngine.MemberText | jsonrpc4j/src/main/java/com/googlecode/jsonrpc4j/jackson/JacksonJsonEngine.java:296-307 | a non-object is refused; a missing member is a null dereference; a present member gives its value as text |
| JacksonEngine.GetIdFromRpcRequest | jsonrpc4j/src/main/java/com/googlecode/jsonrpc4j/jackson/JacksonJsonEngine.java:296-307 | succeeds exactly on an object holding an `id` member; a text id is read back as that text |
| JacksonEngine.GetMethodNameFromRpcRequest | jsonrpc4j/src/main/java/com/googlecode/jsonrpc4j/jackson/JacksonJsonEngine.java:338-349 | succeeds exactly on an object holding a `method` member; a valid request yields its non-blank method name |
| JacksonEngine.ParamsOf | jsonrpc4j/src/main/java/com/googlecode/jsonrpc4j/jackson/JacksonJsonEngine.java:316-323 | the params member of a request object, a `JsonException` for a non-object and a null dereference when absent |
| JacksonEngine.IsRpcRequestParametersIndexed | jsonrpc4j/src/main/java/com/googlecode/jsonrpc4j/jackson/JacksonJsonEngine.java:354-365 | fails exactly when reading params fails; otherwise true iff params is an array |
| JacksonEngine.GetParameterCountFromRpcRequest | jsonrpc4j/src/main/java/com/googlecode/jsonrpc4j/jackson/JacksonJsonEngine.java:400-411 | the number of elements of array params or members of object params |
| JacksonEngine.GetParameterByIndex | jsonrpc4j/src/main/java/com/googlecode/jsonrpc4j/jackson/JacksonJsonEngine.java:370-380 | refused unless params is an array; otherwise the element at the index, null past the end |
| JacksonEngine.GetParameterByName | jsonrpc4j/src/main/java/com/googlecode/jsonrpc4j/jackson/JacksonJsonEngine.java:385-395 | refused when params is an array; a cast failure when params is a value; otherwise the named member or null |
| JacksonEngine.GetJsonParametersFromRpcRequest | jsonrpc4j/src/main/java/com/googlecode/jsonrpc4j/jackson/JacksonJsonEngine.java:312-333 | array params give their elements in order; any other params give a one-element list; failures of reading params are passed on |
| JacksonEngine.JsonToObject | jsonrpc4j/src/main/java/com/googlecode/jsonrpc4j/jackson/JacksonJsonEngine.java:89-115 | a null tree is refused; otherwise the binding's result, a binding failure wrapped in a `JsonException` |
| JacksonEngine.ObjectToJson | jsonrpc4j/src/main/java/com/googlecode/jsonrpc4j/jackson/JacksonJsonEngine.java:149-168 | succeeds iff serialisation does, with its tree; a failure is wrapped in a `JsonException` |
| JacksonEngine.GetJsonErrorFromResponse | jsonrpc4j/src/main/java/com/googlecode/jsonrpc4j/jackson/JacksonJsonEngine.java:416-427 | a non-object is refused; otherwise the error member bound to `JsonRpcError` |
| JacksonEngine.GetJsonResultFromResponse | jsonrpc4j/src/main/java/com/googlecode/jsonrpc4j/jackson/JacksonJsonEngine.java:432-442 | fails iff the response is not an object; otherwise the result member or null |
| JacksonEngine.ArgumentTrees | jsonrpc4j/src/main/java/com/googlecode/jsonrpc4j/jackson/JacksonJsonEngine.java:476-478 | on success one tree per argument, in order, each the argument's serialisation |
| JacksonEngine.ArgumentTreesFailure | jsonrpc4j/src/main/java/com/googlecode/jsonrpc4j/jackson/JacksonJsonEngine.java:476-478 | the trees fail iff some argument fails to serialise, and then with the first such failure, wrapped |
| JacksonEngine.CreateRpcRequest | jsonrpc4j/src/main/java/com/googlecode/jsonrpc4j/jackson/JacksonJsonEngine.java:458-482 | succeeds iff every argument serialises; the request has version "2.0", the method name, the id and params holding the argument trees in order |
| JacksonEngine.TreesKeepFailure | jsonrpc4j/src/main/java/com/googlecode/jsonrpc4j/jackson/JacksonJsonEngine.java:476-478 | once a prefix of the arguments fails, the whole list fails the same way |
| JacksonEngine.CreateNamedRpcRequest | jsonrpc4j/src/main/java/com/googlecode/jsonrpc4j/jackson/JacksonJsonEngine.java:487-503 | succeeds iff every named argument serialises; the request has exactly the members jsonrpc, method, id and params, and params has exactly the argument names, each holding its tree; a failure is some argument's wrapped failure |
| JacksonEngine.CommonFieldsWithParams | jsonrpc4j/src/main/java/com/googlecode/jsonrpc4j/jackson/JacksonJsonEngine.java:458-462 | the common members plus params are exactly jsonrpc, method, id and params with their values |
| JacksonEngine.NotificationIffNoId | jsonrpc4j/src/main/java/com/googlecode/jsonrpc4j/jackson/JacksonJsonEngine.java:233-241 | a value is a notification exactly when it is an object whose `id` is missing or null; a batch array never is |
| JacksonEngine.IsRpcBatchRequest | jsonrpc4j/src/main/java/com/googlecode/jsonrpc4j/jackson/JacksonJsonEngine.java:225-228 | a batch (an array node) is never a valid single request, and an object is never a batch |
| JacksonEngine.IsNotification | jsonrpc4j/src/main/java/com/googlecode/jsonrpc4j/jackson/JacksonJsonEngine.java:233-241 | a notification is never a batch; an object without `id` is one; an object with a text id is not |
| JsonRpcResponse.Response.constructor | jsonrpc4j/src/main/java/com/googlecode/jsonrpc4j/JsonRpcResponse.java:12-21 | a new response holds the given result, error and id, with version "2.0" |
| JsonRpcResponse.Response.Empty | jsonrpc4j/src/main/java/com/googlecode/jsonrpc4j/JsonRpcResponse.java:23-25 | a new empty response has version "2.0" and null result, error and id |
| JsonRpcResponse.Response.CreateError | jsonrpc4j/src/main/java/com/googlecode/jsonrpc4j/JsonRpcResponse.java:27-29 | a fresh response with null result, the given id, and an error with exactly the given code, message and data |
| JsonRpcResponse.Response.CreateResponse | jsonrpc4j/src/main/java/com/googlecode/jsonrpc4j/JsonRpcResponse.java:31-33 | a fresh response with the given result and id and no error |
| JsonRpcResponse.Response.SetResult | jsonrpc4j/src/main/java/com/googlecode/jsonrpc4j/JsonRpcResponse.java:45-47 | only the result changes |
| JsonRpcResponse.Response.SetError | jsonrpc4j/src/main/java/com/googlecode/jsonrpc4j/JsonRpcResponse.java:59-61 | only the error changes |
| JsonRpcResponse.Response.SetId | jsonrpc4j/src/main/java/com/googlecode/jsonrpc4j/JsonRpcResponse.java:73-75 | only the id changes |
| JsonRpcResponse.Response.SetJsonrpc | jsonrpc4j/src/main/java/com/googlecode/jsonrpc4j/JsonRpcResponse.java:87-89 | only the version changes |
| JsonRpcClient.EscapedChar | jsonrpc4j/src/main/java/com/googlecode/jsonrpc4j/JsonRpcClient.java:180-181 | a plain character is rendered as itself; quote, backslash and control characters become an escape sequence starting with a backslash |
| JsonRpcClient.PlainTextEscapesToItself | jsonrpc4j/src/main/java/com/googlecode/jsonrpc4j/JsonRpcClient.java:180-181 | text without quote, backslash or control characters is rendered unchanged between the quotes |
| JsonRpcClient.ParamsTree | jsonrpc4j/src/main/java/com/googlecode/jsonrpc4j/JsonRpcClient.java:215 | a null argument array becomes JSON null; otherwise succeeds iff every argument serialises, giving an array of their trees in order |
| JsonRpcClient.NotificationMembers | jsonrpc4j/src/main/java/com/googlecode/jsonrpc4j/JsonRpcClient.java:240-243 | a notification has exactly the members jsonrpc ("2.0"), method and params |
| JsonRpcClient.RequestMembers | jsonrpc4j/src/main/java/com/googlecode/jsonrpc4j/JsonRpcClient.java:211-215 | a request has exactly the notification's members plus the id |
| JsonRpcClient.WrittenRequest | jsonrpc4j/src/main/java/com/googlecode/jsonrpc4j/JsonRpcClient.java:206-224 | writing succeeds iff the arguments serialise; the object written is the request's members as the listener leaves them |
| JsonRpcClient.WrittenNotification | jsonrpc4j/src/main/java/com/googlecode/jsonrpc4j/JsonRpcClient.java:235-252 | as for a request, without the id |
| JsonRpcClient.Classify | jsonrpc4j/src/main/java/com/googlecode/jsonrpc4j/JsonRpcClient.java:175-193 | a present error always raises, before the result is looked at: an error that is no object fails the cast, otherwise the message names its code and message; else a present result is bound to the return type; else null |
| JsonRpcClient.Interpret | jsonrpc4j/src/main/java/com/googlecode/jsonrpc4j/JsonRpcClient.java:158-194 | unparseable input is a parse error; an empty stream raises Jackson's `EOFException` "No content to map to Object due to end of input"; a non-object is "Invalid JSON-RPC response"; an object is classified after the listener has seen it |
| JsonRpcClient.RequestIsValid | jsonrpc4j/src/main/java/com/googlecode/jsonrpc4j/JsonRpcClient.java:206-224 | a request the client writes passes the engine's validation, is no notification, and reads back the id and method it was given |
| JsonRpcClient.NotificationIsValid | jsonrpc4j/src/main/java/com/googlecode/jsonrpc4j/JsonRpcClient.java:235-252 | a notification the client writes passes validation and is treated as a notification |
| JsonRpcClient.ParamsReadBack | jsonrpc4j/src/main/java/com/googlecode/jsonrpc4j/JsonRpcClient.java:215 | the engine reads back as many positional parameters as the client sent, each the argument's tree, in order |
| JsonRpcClient.ServerErrorIsRaised | jsonrpc4j/src/main/java/com/googlecode/jsonrpc4j/JsonRpcClient.java:176-182 | an error response built by the server raises an exception naming its code and quoted message |
| JsonRpcClient.ServerResultIsRead | jsonrpc4j/src/main/java/com/googlecode/jsonrpc4j/JsonRpcClient.java:185-193 | a result response built by the server is bound to the return type; a null result reads as null |
| JsonRpcClient.ServerFailureIsRaised | jsonrpc4j/src/main/java/com/googlecode/jsonrpc4j/JsonRpcClient.java:175-182 | a failed invocation on the server never reads as a value on the client |
| JsonRpcClient.Client.constructor | jsonrpc4j/src/main/java/com/googlecode/jsonrpc4j/JsonRpcClient.java:30-33 | a new client has the given mapper and no listener |
| JsonRpcClient.Client.SetRequestListener | jsonrpc4j/src/main/java/com/googlecode/jsonrpc4j/JsonRpcClient.java:47-49 | only the listener changes |
| JsonRpcClient.Client.WriteRequest | jsonrpc4j/src/main/java/com/googlecode/jsonrpc4j/JsonRpcClient.java:206-224 | the sink receives exactly the written request when it can be built; otherwise nothing is written and the failure is returned |
| JsonRpcClient.Client.WriteNotification | jsonrpc4j/src/main/java/com/googlecode/jsonrpc4j/JsonRpcClient.java:235-252 | the sink receives exactly the written notification when it can be built |
| JsonRpcClient.Client.Invoke | jsonrpc4j/src/main/java/com/googlecode/jsonrpc4j/JsonRpcClient.java:126-131 | the same effect as writing the request with the given id |
| JsonRpcClient.Client.InvokeWithRandomId | jsonrpc4j/src/main/java/com/googlecode/jsonrpc4j/JsonRpcClient.java:110-114 | the request's id is the decimal text of the next random long |
| JsonRpcClient.Client.InvokeNotification | jsonrpc4j/src/main/java/com/googlecode/jsonrpc4j/JsonRpcClient.java:142-147 | the same effect as writing the notification |
| JsonRpcClient.Client.ReadResponse | jsonrpc4j/src/main/java/com/googlecode/jsonrpc4j/JsonRpcClient.java:158-194 | the answer is the interpretation of the input under the current listener |
| JsonRpcClient.Client.InvokeAndReadResponse | jsonrpc4j/src/main/java/com/googlecode/jsonrpc4j/JsonRpcClient.java:88-98 | writes the request with the given id, then answers with the interpretation of exactly one response |
| JsonRpcClient.Client.InvokeAndReadResponseWithRandomId | jsonrpc4j/src/main/java/com/googlecode/jsonrpc4j/JsonRpcClient.java:65-71 | as above with the decimal text of the next random long as id |
| JsonRpcServer.JsonSink.Write | jsonrpc4j/src/main/java/com/googlecode/jsonrpc4j/JsonRpcServer.java:299 | appends exactly one value to what has been written |
| JsonRpcServer.NonNullText | jsonrpc4j/src/main/java/com/googlecode/jsonrpc4j/JsonRpcServer.java:311-313 | an absent member or the JSON null node reads as null; a text node reads as its text |
| JsonRpcServer.FilterByArity | jsonrpc4j/src/main/java/com/googlecode/jsonrpc4j/JsonRpcServer.java:326-333 | keeps exactly the candidates whose parameter count equals the request's (or does not exceed it when extra parameters are allowed) |
| JsonRpcServer.ParamName | jsonrpc4j/src/main/java/com/googlecode/jsonrpc4j/JsonRpcServer.java:372-380 | null iff the parameter has no `@JsonRpcParamName`; otherwise the value of one of its name annotations |
| JsonRpcServer.FindParamName | jsonrpc4j/src/main/java/com/googlecode/jsonrpc4j/JsonRpcServer.java:372-380 | the loop finds the parameter name the specification function gives (the last annotation wins) |
| JsonRpcServer.NamedArgsSpec | jsonrpc4j/src/main/java/com/googlecode/jsonrpc4j/JsonRpcServer.java:366-391 | a method binds by name exactly when every parameter is named; then the nodes are those of the names the request holds, in parameter order |
| JsonRpcServer.BindNamed | jsonrpc4j/src/main/java/com/googlecode/jsonrpc4j/JsonRpcServer.java:366-391 | the loop reports success exactly when the method binds by name, with the nodes of the specification |
| JsonRpcServer.NamedArgsFailureExtends | jsonrpc4j/src/main/java/com/googlecode/jsonrpc4j/JsonRpcServer.java:383-385 | once a leading parameter has no name the whole method fails to bind |
| JsonRpcServer.FirstNamedSpec | jsonrpc4j/src/main/java/com/googlecode/jsonrpc4j/JsonRpcServer.java:363-399 | named binding finds nothing iff no candidate binds; otherwise it picks a candidate that binds, with its nodes |
| JsonRpcServer.ChooseNamed | jsonrpc4j/src/main/java/com/googlecode/jsonrpc4j/JsonRpcServer.java:363-399 | the loop over the candidates in iteration order picks what the specification function picks |
| JsonRpcServer.PositionalArgsMatchArity | jsonrpc4j/src/main/java/com/googlecode/jsonrpc4j/JsonRpcServer.java:347-357 | with positional or no parameters a candidate is chosen and receives exactly as many nodes as it declares |
| JsonRpcServer.ConvertStart | jsonrpc4j/src/main/java/com/googlecode/jsonrpc4j/JsonRpcServer.java:517-522 | before the loop nothing is converted |
| JsonRpcServer.ConvertStep | jsonrpc4j/src/main/java/com/googlecode/jsonrpc4j/JsonRpcServer.java:519-522 | a parameter that converts moves from the outstanding part to the converted prefix |
| JsonRpcServer.ConvertStopsAt | jsonrpc4j/src/main/java/com/googlecode/jsonrpc4j/JsonRpcServer.java:519-522 | conversion fails at a missing node or at the first node that does not convert |
| JsonRpcServer.ConvertEnd | jsonrpc4j/src/main/java/com/googlecode/jsonrpc4j/JsonRpcServer.java:519-522 | after the last parameter the converted prefix is the result |
| JsonRpcServer.MissingArgsFail | jsonrpc4j/src/main/java/com/googlecode/jsonrpc4j/JsonRpcServer.java:517-525 | a method given fewer nodes than it declares fails before reaching the handler |
| JsonRpcServer.ConvertArgsShort | jsonrpc4j/src/main/java/com/googlecode/jsonrpc4j/JsonRpcServer.java:519-521 | conversion fails when there are fewer nodes than parameter types |
| JsonRpcServer.LastErrorMappings | jsonrpc4j/src/main/java/com/googlecode/jsonrpc4j/JsonRpcServer.java:410-418 | a method without `@JsonRpcErrors` has no error mappings |
| JsonRpcServer.ErrorMappingsOf | jsonrpc4j/src/main/java/com/googlecode/jsonrpc4j/JsonRpcServer.java:410-418 | the loop keeps the mappings of the last `@JsonRpcErrors` annotation |
| JsonRpcServer.ErrorObjectSpec | jsonrpc4j/src/main/java/com/googlecode/jsonrpc4j/JsonRpcServer.java:431-464 | the error has code and message; unmapped exceptions get code 0, their message and their class name as data; a mapped one gets the first matching mapping's code and message, and the mapping's data when non-empty; with empty mapping data the data is the exception message, and it is left out when that message is null or empty |
| JsonRpcServer.BuildError | jsonrpc4j/src/main/java/com/googlecode/jsonrpc4j/JsonRpcServer.java:431-464 | the loop builds the error object of the specification |
| JsonRpcServer.ErrorResponse | jsonrpc4j/src/main/java/com/googlecode/jsonrpc4j/JsonRpcServer.java:538-551 | exactly the members jsonrpc, id and error; the error has the code and message, and data iff data is given |
| JsonRpcServer.ObjectRunWritesResponses | jsonrpc4j/src/main/java/com/googlecode/jsonrpc4j/JsonRpcServer.java:292-492 | handling one request object writes at most one value, and it is a response |
| JsonRpcServer.NodeRunWritesResponses | jsonrpc4j/src/main/java/com/googlecode/jsonrpc4j/JsonRpcServer.java:243-261 | every value written while handling any node, batches included, is a response object with exactly one of result and error |
| JsonRpcServer.BatchRunWritesResponses | jsonrpc4j/src/main/java/com/googlecode/jsonrpc4j/JsonRpcServer.java:272-281 | every value written while handling a batch is a response |
| JsonRpcServer.ResponsesEchoRequest | jsonrpc4j/src/main/java/com/googlecode/jsonrpc4j/JsonRpcServer.java:311-313 | a well-formed request is answered with its own version text and id; a request without id is answered only with an error, never a result |
| JsonRpcServer.InvokedNotificationSilent | jsonrpc4j/src/main/java/com/googlecode/jsonrpc4j/JsonRpcServer.java:466-470 | a request with a null or missing id whose method was found and invoked writes nothing and completes, whether the handler returned or threw |
| JsonRpcServer.InvalidRequestAnswered | jsonrpc4j/src/main/java/com/googlecode/jsonrpc4j/JsonRpcServer.java:298-302 | a request without jsonrpc or method gets exactly one -32600 "Invalid Request" error with version "jsonrpc" and id "null", and no result, whether or not it has an id |
| JsonRpcServer.InvalidParamsAnswered | jsonrpc4j/src/main/java/com/googlecode/jsonrpc4j/JsonRpcServer.java:401-406 | when methods of the right name and arity exist but none takes the parameters, exactly one -32602 "Invalid method parameters." error is written with the request's version text and id, and nothing is invoked |
| JsonRpcServer.ArityMismatchIsMethodNotFound | jsonrpc4j/src/main/java/com/googlecode/jsonrpc4j/JsonRpcServer.java:326-340 | without extra parameters allowed, a parameter count that matches no method of that name gives exactly one -32601 "Method not found" and invokes nothing |
| JsonRpcServer.RethrowFollowsErrorResponse | jsonrpc4j/src/main/java/com/googlecode/jsonrpc4j/JsonRpcServer.java:467-491 | only a request with an id whose invocation failed can rethrow, only when rethrowing is on, and after its error response was written |
| JsonRpcServer.BatchConcatenates | jsonrpc4j/src/main/java/com/googlecode/jsonrpc4j/JsonRpcServer.java:272-281 | a batch whose elements all complete writes the elements' responses in order |
| JsonRpcServer.BatchStopsAtException | jsonrpc4j/src/main/java/com/googlecode/jsonrpc4j/JsonRpcServer.java:277-280 | the first element that raises ends the batch with that exception |
| JsonRpcServer.Server.constructor | jsonrpc4j/src/main/java/com/googlecode/jsonrpc4j/JsonRpcServer.java:59-63 | the server keeps handler and remote interface, neither rethrows nor allows extra parameters |
| JsonRpcServer.Server.HandlerClass | jsonrpc4j/src/main/java/com/googlecode/jsonrpc4j/JsonRpcServer.java:229-232 | the remote interface when given, the handler's class otherwise |
| JsonRpcServer.Server.SetRethrowExceptions | jsonrpc4j/src/main/java/com/googlecode/jsonrpc4j/JsonRpcServer.java:565-567 | only the rethrow flag changes |
| JsonRpcServer.Server.SetAllowExtraParams | jsonrpc4j/src/main/java/com/googlecode/jsonrpc4j/JsonRpcServer.java:578-580 | only the extra-parameters flag changes |
| JsonRpcServer.Server.Handle | jsonrpc4j/src/main/java/com/googlecode/jsonrpc4j/JsonRpcServer.java:188-193 | unparseable input raises a parse error and an empty stream Jackson's `EOFException`, writing nothing; a parsed value is handled as a node |
| JsonRpcServer.Server.HandleNode | jsonrpc4j/src/main/java/com/googlecode/jsonrpc4j/JsonRpcServer.java:243-261 | writes and ends exactly as the node specification says |
| JsonRpcServer.Server.HandleArray | jsonrpc4j/src/main/java/com/googlecode/jsonrpc4j/JsonRpcServer.java:272-281 | the loop writes and ends exactly as the batch specification says |
| JsonRpcServer.Server.HandleObject | jsonrpc4j/src/main/java/com/googlecode/jsonrpc4j/JsonRpcServer.java:292-492 | writes and ends exactly as the request specification says |
| JsonRpcServer.Server.ChooseCall | jsonrpc4j/src/main/java/com/googlecode/jsonrpc4j/JsonRpcServer.java:343-400 | picks the method and parameter nodes of the specification |
| JsonRpcServer.Server.InvokeAndRespond | jsonrpc4j/src/main/java/com/googlecode/jsonrpc4j/JsonRpcServer.java:420-491 | writes and ends as the invocation specification says: nothing for a notification, a rethrow only after the response |
| JsonRpcServer.Server.Invoke | jsonrpc4j/src/main/java/com/googlecode/jsonrpc4j/JsonRpcServer.java:508-527 | the invocation outcome of the specification: converted arguments passed to the handler, or the first conversion failure |
| ReflectionUtil.CacheKeyInjective | jsonrpc4j/src/main/java/com/googlecode/jsonrpc4j/ReflectionUtil.java:37 | two lookups share a cache key only when class name and method name are both equal |
| ReflectionUtil.KeyCharacter | jsonrpc4j/src/main/java/com/googlecode/jsonrpc4j/ReflectionUtil.java:37 | a cache key spells the class name, none of whose characters is ':', and then ':' |
| ReflectionUtil.OfType | jsonrpc4j/src/main/java/com/googlecode/jsonrpc4j/ReflectionUtil.java:97-106 | an annotation is kept iff it is in the list and of the requested type; no more than the list |
| ReflectionUtil.FirstOfType | jsonrpc4j/src/main/java/com/googlecode/jsonrpc4j/ReflectionUtil.java:116-124 | null iff no annotation has the type; otherwise one of the list's annotations of that type |
| ReflectionUtil.FirstOfTypeIsHeadOfOfType | jsonrpc4j/src/main/java/com/googlecode/jsonrpc4j/ReflectionUtil.java:97-124 | the single lookup returns the head of the filtered list, null when that is empty |
| ReflectionUtil.ParamOfType | jsonrpc4j/src/main/java/com/googlecode/jsonrpc4j/ReflectionUtil.java:157-170 | one filtered list per parameter, each that parameter's annotations of the type |
| ReflectionUtil.ReflectionCache.constructor | jsonrpc4j/src/main/java/com/googlecode/jsonrpc4j/ReflectionUtil.java:18-28 | all four caches start empty and consistent |
| ReflectionUtil.ReflectionCache.FindMethods | jsonrpc4j/src/main/java/com/googlecode/jsonrpc4j/ReflectionUtil.java:36-50 | a null name fails and caches nothing; otherwise the public methods of that name, cached under the class-and-name key, other caches unchanged |
| ReflectionUtil.ReflectionCache.GetParameterTypes | jsonrpc4j/src/main/java/com/googlecode/jsonrpc4j/ReflectionUtil.java:57-68 | the declared parameter types, memoised, other caches unchanged |
| ReflectionUtil.ReflectionCache.GetAnnotations | jsonrpc4j/src/main/java/com/googlecode/jsonrpc4j/ReflectionUtil.java:76-87 | the method's annotations, memoised, other caches unchanged |
| ReflectionUtil.ReflectionCache.GetAnnotationsOfType | jsonrpc4j/src/main/java/com/googlecode/jsonrpc4j/ReflectionUtil.java:97-106 | the method's annotations of the type, in order |
| ReflectionUtil.ReflectionCache.GetAnnotation | jsonrpc4j/src/main/java/com/googlecode/jsonrpc4j/ReflectionUtil.java:116-124 | the method's first annotation of the type, or null |
| ReflectionUtil.ReflectionCache.GetParameterAnnotations | jsonrpc4j/src/main/java/com/googlecode/jsonrpc4j/ReflectionUtil.java:132-147 | the annotations of each parameter, memoised |
| ReflectionUtil.ReflectionCache.GetParameterAnnotationsOfType | jsonrpc4j/src/main/java/com/googlecode/jsonrpc4j/ReflectionUtil.java:157-170 | for each parameter its annotations of the type |
| SpringExporter.FirstParamName | jsonrpc4j/src/main/java/com/googlecode/jsonrpc4j/spring/JsonServiceExporter.java:345-352 | null iff no annotation of the parameter is a `JsonRpcParamName`; otherwise the value of one that is |
| SpringExporter.GetParamNameByAnnotation | jsonrpc4j/src/main/java/com/googlecode/jsonrpc4j/spring/JsonServiceExporter.java:345-352 | the loop returns the first name annotation's value |
| SpringExporter.NamedParam | jsonrpc4j/src/main/java/com/googlecode/jsonrpc4j/spring/JsonServiceExporter.java:312-315 | the implementation's parameter name wins; the interface's is the fallback; a name found is one of the two |
| SpringExporter.Arguments | jsonrpc4j/src/main/java/com/googlecode/jsonrpc4j/spring/JsonServiceExporter.java:265-273 | the arguments bind iff each of the leading parameters binds, and then one converted value per parameter in order |
| SpringExporter.ReadParamNode | jsonrpc4j/src/main/java/com/googlecode/jsonrpc4j/spring/JsonServiceExporter.java:267 | reads the parameter node the specification names, by index or by name |
| SpringExporter.BindArguments | jsonrpc4j/src/main/java/com/googlecode/jsonrpc4j/spring/JsonServiceExporter.java:309-327 | the inner loop matches iff all the method's arguments bind, and then yields them |
| SpringExporter.FindInvocationSpec | jsonrpc4j/src/main/java/com/googlecode/jsonrpc4j/spring/JsonServiceExporter.java:251-284 | no invocation iff no candidate binds all its arguments; a found one is a candidate with its bound arguments |
| SpringExporter.FindMethodAndParams | jsonrpc4j/src/main/java/com/googlecode/jsonrpc4j/spring/JsonServiceExporter.java:293-338 | the loop over the candidates finds the invocation of the specification |
| SpringExporter.FilterCandidates | jsonrpc4j/src/main/java/com/googlecode/jsonrpc4j/spring/JsonServiceExporter.java:198-205 | keeps exactly the interface methods with the requested name and parameter count |
| SpringExporter.ThrownResponse | jsonrpc4j/src/main/java/com/googlecode/jsonrpc4j/spring/JsonServiceExporter.java:231-240 | a `JsonServiceException` gives an error with its code negated, its message and its data; anything else gives -32603 "Internal Error: " and the message |
| SpringExporter.BatchResponses | jsonrpc4j/src/main/java/com/googlecode/jsonrpc4j/spring/JsonServiceExporter.java:164-169 | a batch yields at most one response per element |
| SpringExporter.ParseErrorAnswered | jsonrpc4j/src/main/java/com/googlecode/jsonrpc4j/spring/JsonServiceExporter.java:103-107 | an unreadable body is answered with status 500 and exactly one -32700 "Parse Error" response with null id |
| SpringExporter.BatchWritesArray | jsonrpc4j/src/main/java/com/googlecode/jsonrpc4j/spring/JsonServiceExporter.java:121-122 | a batch that raises nothing is answered with an array, possibly empty |
| SpringExporter.SilentOnlyForNotifications | jsonrpc4j/src/main/java/com/googlecode/jsonrpc4j/spring/JsonServiceExporter.java:229-230 | a request yields no response exactly when it is a notification whose method was found, bound and returned normally: silence implies such a notification, and every such notification is silent |
| SpringExporter.MethodNotFound | jsonrpc4j/src/main/java/com/googlecode/jsonrpc4j/spring/JsonServiceExporter.java:206-210 | a name and parameter count matching no interface method gives -32601 with the name in the message |
| SpringExporter.ServiceExceptionNegatesCode | jsonrpc4j/src/main/java/com/googlecode/jsonrpc4j/spring/JsonServiceExporter.java:231-234 | a service throwing a `JsonServiceException` (unchecked, so `ReflectionUtils.invokeMethod` passes it through) yields an error with the negated code, its message and data |
| SpringExporter.InternalErrorAnswered | jsonrpc4j/src/main/java/com/googlecode/jsonrpc4j/spring/JsonServiceExporter.java:226-240 | any other exception of the service gets -32603 "Internal Error: " with its own message when unchecked, and "Internal Error: null" when checked, because `ReflectionUtils.invokeMethod` wraps it in an `UndeclaredThrowableException` first |
| SpringExporter.AssertionFailureAnswered | jsonrpc4j/src/main/java/com/googlecode/jsonrpc4j/spring/Assertions.java:7-12 | a failed `Assertions.isTrue` reaches the client as an error with the negated code, the message and the data |
| SpringExporter.JsonServiceExporter.constructor | jsonrpc4j/src/main/java/com/googlecode/jsonrpc4j/spring/JsonServiceExporter.java:61-63 | a new exporter has no interface methods and no implementation map |
| SpringExporter.JsonServiceExporter.AfterPropertiesSet | jsonrpc4j/src/main/java/com/googlecode/jsonrpc4j/spring/JsonServiceExporter.java:69-75 | succeeds iff every interface method has an implementation method of the same signature, recording each interface method and that implementation; on failure throws `NoSuchMethodException` at the first interface method without one, after that method has joined the interface set and with only the earlier ones mapped |
| SpringExporter.JsonServiceExporter.HandleSingleRequest | jsonrpc4j/src/main/java/com/googlecode/jsonrpc4j/spring/JsonServiceExporter.java:188-241 | the response of the single-request specification, the service's exception passed through `ReflectionUtils.invokeMethod`'s wrapping before the catch clauses |
| SpringExporter.JsonServiceExporter.HandleRpcRequest | jsonrpc4j/src/main/java/com/googlecode/jsonrpc4j/spring/JsonServiceExporter.java:156-179 | the batch loop yields the responses of the specification |
| SpringExporter.JsonServiceExporter.HandleRequest | jsonrpc4j/src/main/java/com/googlecode/jsonrpc4j/spring/JsonServiceExporter.java:89-146 | writes the outcome of the request specification |
| SpringExporter.BatchKeepsFailure | jsonrpc4j/src/main/java/com/googlecode/jsonrpc4j/spring/JsonServiceExporter.java:166-169 | an exception on a prefix of a batch is the exception of the whole batch |
| SpringExporter.FindBySignature | jsonrpc4j/src/main/java/com/googlecode/jsonrpc4j/spring/JsonServiceExporter.java:73-74 | null iff no method has the name and parameter types; otherwise one that has both |
| TrunkRpcUtils.LibClass | jsonrpc4j/trunk/src/main/java/com/googlecode/jsonrpc4j/JsonRpcUtils.java:130 | the class json-lib stores for a node is never an array or primitive class |
| TrunkRpcUtils.LibValue | jsonrpc4j/trunk/src/main/java/com/googlecode/jsonrpc4j/JsonRpcUtils.java:130-131 | the object stored for a node has exactly the class `LibClass` names |
| TrunkRpcUtils.GetString | jsonrpc4j/trunk/src/main/java/com/googlecode/jsonrpc4j/JsonRpcUtils.java:56-58 | fails iff the member is missing, with a not-found exception; a text member gives its text |
| TrunkRpcUtils.NotificationNeverRecognised | jsonrpc4j/trunk/src/main/java/com/googlecode/jsonrpc4j/JsonRpcUtils.java:95-98 | the written test throws without an id and says no with one: it never answers true |
| TrunkRpcUtils.IsNotificationAsWritten | jsonrpc4j/trunk/src/main/java/com/googlecode/jsonrpc4j/JsonRpcUtils.java:95-98 | as written: throws exactly when the id is missing, and never answers true |
| TrunkRpcUtils.IsNotification | jsonrpc4j/trunk/src/main/java/com/googlecode/jsonrpc4j/JsonRpcUtils.java:95-98 | corrected: a missing id makes a notification; a text id makes one exactly when it is empty |
| TrunkRpcUtils.NotificationIffNoId | jsonrpc4j/trunk/src/main/java/com/googlecode/jsonrpc4j/JsonRpcUtils.java:95-98 | the corrected test on a present id: a notification iff it reads as empty text; a null or numeric id is never one |
| TrunkRpcUtils.GetId | jsonrpc4j/trunk/src/main/java/com/googlecode/jsonrpc4j/JsonRpcUtils.java:65-67 | null iff the request is a notification; otherwise the non-empty text of the id |
| TrunkRpcUtils.IsParamsIndexed | jsonrpc4j/trunk/src/main/java/com/googlecode/jsonrpc4j/JsonRpcUtils.java:86-88 | a missing params member is dereferenced; otherwise true iff params is an array |
| TrunkRpcUtils.GetParamCount | jsonrpc4j/trunk/src/main/java/com/googlecode/jsonrpc4j/JsonRpcUtils.java:74-78 | missing params are dereferenced; the length of array params, the key count of object params, 0 for JSON null, and a cast failure otherwise |
| TrunkRpcUtils.GetParamName | jsonrpc4j/trunk/src/main/java/com/googlecode/jsonrpc4j/JsonRpcUtils.java:245-256 | null past the last parameter; otherwise the parameter's first name annotation |
| TrunkRpcUtils.GetPotentialMethods | jsonrpc4j/trunk/src/main/java/com/googlecode/jsonrpc4j/JsonRpcUtils.java:228-237 | no service methods give none; a missing method member throws; otherwise exactly the methods with the requested name |
| TrunkRpcUtils.ParseIntegral | jsonrpc4j/trunk/src/main/java/com/googlecode/jsonrpc4j/JsonRpcUtils.java:171-199 | a parsed integral value has the requested kind and lies in its range |
| TrunkRpcUtils.ConvertElements | jsonrpc4j/trunk/src/main/java/com/googlecode/jsonrpc4j/JsonRpcUtils.java:143-148 | converting the leading elements yields one value per element |
| TrunkRpcUtils.ConvertKeepsOrNulls | jsonrpc4j/trunk/src/main/java/com/googlecode/jsonrpc4j/JsonRpcUtils.java:130-135 | a value whose class is the target comes back unchanged; JSON null for any other target is null |
| TrunkRpcUtils.ConvertType | jsonrpc4j/trunk/src/main/java/com/googlecode/jsonrpc4j/JsonRpcUtils.java:124-218 | a text, number or boolean that converts gives a value of the target type (a primitive target autoboxed); an array that converts gives an array with one element per entry |
| TrunkRpcUtils.FromText | jsonrpc4j/trunk/src/main/java/com/googlecode/jsonrpc4j/JsonRpcUtils.java:160-213 | whatever converts is of the target type; a boolean target never fails; a character target fails only on empty text and otherwise gives its first character |
| TrunkRpcUtils.ConvertIntegral | jsonrpc4j/trunk/src/main/java/com/googlecode/jsonrpc4j/JsonRpcUtils.java:163-199 | a number, or its decimal text, converts to an integral type that holds it as that number |
| TrunkRpcUtils.ConvertRejectsOutOfRange | jsonrpc4j/trunk/src/main/java/com/googlecode/jsonrpc4j/JsonRpcUtils.java:163-199 | text that is no decimal or out of range never converts to an integral primitive or wrapper |
| TrunkRpcUtils.ConvertUnsupported | jsonrpc4j/trunk/src/main/java/com/googlecode/jsonrpc4j/JsonRpcUtils.java:215-217 | a text, number or boolean has no conversion to a type outside the handled ones: "Don't know how to convert" |
| TrunkRpcUtils.ConvertArrayLength | jsonrpc4j/trunk/src/main/java/com/googlecode/jsonrpc4j/JsonRpcUtils.java:142-148 | an array converts to an array of the component type with one element per entry |
| TrunkRpcUtils.Stored | jsonrpc4j/trunk/src/main/java/com/googlecode/jsonrpc4j/JsonRpcUtils.java:287-288 | a stored value is never null, since `getClass()` is called on it |
| TrunkRpcUtils.Slot | jsonrpc4j/trunk/src/main/java/com/googlecode/jsonrpc4j/JsonRpcUtils.java:286-306 | a parameter's slot, when filled, holds a non-null value |
| TrunkRpcUtils.Collected | jsonrpc4j/trunk/src/main/java/com/googlecode/jsonrpc4j/JsonRpcUtils.java:284-307 | after k parameters the loop holds k slots, every filled one non-null |
| TrunkRpcUtils.CollectedKeepsFailure | jsonrpc4j/trunk/src/main/java/com/googlecode/jsonrpc4j/JsonRpcUtils.java:284-307 | an exception on a leading parameter is the exception of the whole loop |
| TrunkRpcUtils.AlignedUpTo | jsonrpc4j/trunk/src/main/java/com/googlecode/jsonrpc4j/JsonRpcUtils.java:310-366 | the loop says true only when every class so far is known and fits its declared type |
| TrunkRpcUtils.AlignedKeepsVerdict | jsonrpc4j/trunk/src/main/java/com/googlecode/jsonrpc4j/JsonRpcUtils.java:310-366 | once the alignment loop says false or throws, later parameters do not change that |
| TrunkRpcUtils.AlignedIffFits | jsonrpc4j/trunk/src/main/java/com/googlecode/jsonrpc4j/JsonRpcUtils.java:310-366 | with every class known, the loop says false exactly when some type does not fit |
| TrunkRpcUtils.ParametersSpec | jsonrpc4j/trunk/src/main/java/com/googlecode/jsonrpc4j/JsonRpcUtils.java:265-370 | a failing count passes on its exception; a count different from the arity gives null; no parameters on both sides give an empty array; bound values are one per parameter and each fits its type |
| TrunkRpcUtils.ParametersBound | jsonrpc4j/trunk/src/main/java/com/googlecode/jsonrpc4j/JsonRpcUtils.java:284-306 | each bound value is the conversion to the parameter's declared type of the request value it came from: the element at the same index for indexed params, the member named by the parameter's `JsonRpcParamName` for named params |
| TrunkRpcUtils.PrimitiveGetsItsWrapper | jsonrpc4j/trunk/src/main/java/com/googlecode/jsonrpc4j/JsonRpcUtils.java:324-364 | a primitive parameter is bound only to a value whose class (or array component) is that primitive or its wrapper |
| TrunkRpcUtils.MisfitGivesNull | jsonrpc4j/trunk/src/main/java/com/googlecode/jsonrpc4j/JsonRpcUtils.java:319-321 | once every parameter is stored, one misfit makes the method not fit, never an exception |
| TrunkRpcUtils.CollectedStep | jsonrpc4j/trunk/src/main/java/com/googlecode/jsonrpc4j/JsonRpcUtils.java:286-289 | one loop step appends the parameter's slot |
| TrunkRpcUtils.CollectInto | jsonrpc4j/trunk/src/main/java/com/googlecode/jsonrpc4j/JsonRpcUtils.java:284-307 | the loop fills both arrays with the slots of the specification, or stops with its exception |
| TrunkRpcUtils.TypesAlign | jsonrpc4j/trunk/src/main/java/com/googlecode/jsonrpc4j/JsonRpcUtils.java:310-366 | the loop returns the verdict of the specification over the filled classes |
| TrunkRpcUtils.GetParameters | jsonrpc4j/trunk/src/main/java/com/googlecode/jsonrpc4j/JsonRpcUtils.java:265-370 | the bound values of the specification |
| TrunkReader.ValidatedPrefix | jsonrpc4j/trunk/src/main/java/com/googlecode/jsonrpc4j/JsonRpcReader.java:74-77 | after k elements the loop holds exactly the first k elements, in order |
| TrunkReader.ValidatedPrefixKeepsFailure | jsonrpc4j/trunk/src/main/java/com/googlecode/jsonrpc4j/JsonRpcReader.java:75-77 | an exception on a leading element is the exception of the whole batch |
| TrunkReader.ValidatedPrefixSpec | jsonrpc4j/trunk/src/main/java/com/googlecode/jsonrpc4j/JsonRpcReader.java:73-77 | the loop fails exactly when some element is no valid request, and then with the violation of the first one |
| TrunkReader.ReadNextSpec | jsonrpc4j/trunk/src/main/java/com/googlecode/jsonrpc4j/JsonRpcReader.java:58-86 | a parse failure is wrapped in `JsonParseException`; the end of input is refused as no object; an array has every element validated; any other value is validated on its own |
| TrunkReader.BatchFlattened | jsonrpc4j/trunk/src/main/java/com/googlecode/jsonrpc4j/JsonRpcReader.java:73-77 | a batch is returned whole and in order iff all its elements are valid requests |
| TrunkReader.BatchRefusedAtFirstInvalid | jsonrpc4j/trunk/src/main/java/com/googlecode/jsonrpc4j/JsonRpcReader.java:75-76 | a batch with an invalid element is refused with the violation of the first one |
| TrunkReader.ValidatedStep | jsonrpc4j/trunk/src/main/java/com/googlecode/jsonrpc4j/JsonRpcReader.java:75-77 | one loop step appends the validated element |
| TrunkReader.ValidateBatch | jsonrpc4j/trunk/src/main/java/com/googlecode/jsonrpc4j/JsonRpcReader.java:73-77 | the loop returns what the specification says |
| TrunkReader.JsonRpcReader.constructor | jsonrpc4j/trunk/src/main/java/com/googlecode/jsonrpc4j/JsonRpcReader.java:33-40 | the reader starts with the whole input pending |
| TrunkReader.JsonRpcReader.ReadNext | jsonrpc4j/trunk/src/main/java/com/googlecode/jsonrpc4j/JsonRpcReader.java:58-86 | the answer for the next value of the stream, which is consumed |
| TrunkJsonUtils.ValidateRpcRequest | jsonrpc4j/trunk/src/main/java/com/googlecode/jsonrpc4j/JsonUtils.java:28-58 | the node itself iff it is a valid request; otherwise a `JsonParseException` for the first failing check, in the order object, version, method |
| TrunkJsonUtils.VersionReportedFirst | jsonrpc4j/trunk/src/main/java/com/googlecode/jsonrpc4j/JsonUtils.java:42-47 | a wrong or missing version is reported even when the method is wrong too |
| TrunkJsonUtils.WellFormedPasses | jsonrpc4j/trunk/src/main/java/com/googlecode/jsonrpc4j/JsonUtils.java:42-57 | an object with version "2.0" and a non-blank method passes, whatever else it holds |
| TrunkJacksonEngine.IsNotification | jsonrpc4j/trunk/src/main/java/com/googlecode/jsonrpc4j/jackson/JacksonJsonEngine.java:176-181 | false for a non-object; a missing id is dereferenced; otherwise true iff the id is JSON null |
| TrunkJacksonEngine.NotificationWithoutIdThrows | jsonrpc4j/trunk/src/main/java/com/googlecode/jsonrpc4j/jackson/JacksonJsonEngine.java:176-181 | a request without id, a notification in JSON-RPC 2.0, makes the written test throw, while the later engine's test accepts it |
| TrunkJacksonEngine.AgreesWhereDefined | jsonrpc4j/trunk/src/main/java/com/googlecode/jsonrpc4j/jackson/JacksonJsonEngine.java:176-181 | wherever the written test answers, it agrees with the later engine's test |
| TrunkJacksonEngine.WriteCheck | jsonrpc4j/trunk/src/main/java/com/googlecode/jsonrpc4j/jackson/JacksonJsonEngine.java:216-221 | a value passes iff it is a JSON node and, when an object, a valid request; a non-node is refused; a failing object gets the validation's error |
| TrunkJacksonEngine.ResponseRefused | jsonrpc4j/trunk/src/main/java/com/googlecode/jsonrpc4j/jackson/JacksonJsonEngine.java:219-221 | an object without a method member, such as a response, cannot be written |
| TrunkJacksonEngine.WriteJson | jsonrpc4j/trunk/src/main/java/com/googlecode/jsonrpc4j/jackson/JacksonJsonEngine.java:212-233 | the tree is written exactly when it passes the check; nothing is written otherwise |
| TrunkExporter.BeforeSemicolon | jsonrpc4j/trunk/src/main/java/com/googlecode/jsonrpc4j/spring/JsonServiceExporter.java:83 | a prefix of the header holding no ';', followed in the header by ';' when shorter |
| TrunkExporter.MediaTypeSpec | jsonrpc4j/trunk/src/main/java/com/googlecode/jsonrpc4j/spring/JsonServiceExporter.java:83 | a missing header is dereferenced; a header without parameters is taken whole; the media type is a ';'-free prefix of the header, defined whenever the header does not start with ';' |
| TrunkExporter.NoSemicolonKept | jsonrpc4j/trunk/src/main/java/com/googlecode/jsonrpc4j/spring/JsonServiceExporter.java:83 | text without ';' is its own media type |
| TrunkExporter.HeaderError | jsonrpc4j/trunk/src/main/java/com/googlecode/jsonrpc4j/spring/JsonServiceExporter.java:96-109 | only strict mode refuses; the content-type error iff the media type is unlisted; the Accept error iff the media type is listed and Accept is missing or unlisted |
| TrunkExporter.GetIdAsWritten | jsonrpc4j/trunk/src/main/java/com/googlecode/jsonrpc4j/JsonRpcUtils.java:65-67 | as written, a request without id throws not-found; with an id, its text |
| TrunkExporter.FirstBindingSpec | jsonrpc4j/trunk/src/main/java/com/googlecode/jsonrpc4j/spring/JsonServiceExporter.java:143-152 | the search finds nothing iff every candidate gives null; a found method is a candidate with the parameters it binds; an exception comes from binding some candidate |
| TrunkExporter.MethodNotFound | jsonrpc4j/trunk/src/main/java/com/googlecode/jsonrpc4j/spring/JsonServiceExporter.java:134-141 | no service method of the requested name gives status 400 and -32601 naming the method |
| TrunkExporter.InvalidParameters | jsonrpc4j/trunk/src/main/java/com/googlecode/jsonrpc4j/spring/JsonServiceExporter.java:154-159 | methods of that name exist but none binds: status 500 and -32602 |
| TrunkExporter.InvokedResult | jsonrpc4j/trunk/src/main/java/com/googlecode/jsonrpc4j/spring/JsonServiceExporter.java:161-176 | status 200 carries what the service returned for a method of that name on the parameters bound to it |
| TrunkExporter.HandlerFailure | jsonrpc4j/trunk/src/main/java/com/googlecode/jsonrpc4j/spring/JsonServiceExporter.java:169-173 | a handler failure gives status 500 and -32603 with the handler's message |
| TrunkExporter.InternalErrorText | jsonrpc4j/trunk/src/main/java/com/googlecode/jsonrpc4j/spring/JsonServiceExporter.java:171-172 | a runtime exception's message is kept; a checked exception arrives wrapped, so the message reads "null" |
| TrunkExporter.ParseErrorNeverWritten | jsonrpc4j/trunk/src/main/java/com/googlecode/jsonrpc4j/spring/JsonServiceExporter.java:86-121 | as written, a body that is no JSON object never gets its -32700 answer: the final notification test dereferences null |
| TrunkExporter.HandleRequestAsWritten | jsonrpc4j/trunk/src/main/java/com/googlecode/jsonrpc4j/spring/JsonServiceExporter.java:68-127 | as written, the servlet writes only for a parsed request object that has an `id`, and then always writes a body |
| TrunkExporter.NotificationFailsAsWritten | jsonrpc4j/trunk/src/main/java/com/googlecode/jsonrpc4j/spring/JsonServiceExporter.java:86-89 | as written, a request without id always fails |
| TrunkExporter.ParseErrorAnswered | jsonrpc4j/trunk/src/main/java/com/googlecode/jsonrpc4j/spring/JsonServiceExporter.java:90-94 | corrected: a body that is no JSON object, once the headers pass, is answered with status 500, -32700 and a null id |
| TrunkExporter.HandleRequestSpec | jsonrpc4j/trunk/src/main/java/com/googlecode/jsonrpc4j/spring/JsonServiceExporter.java:68-127 | corrected: a body that is no JSON object is always answered with a body once the content type is read; a written answer has no body only for a notification |
| TrunkExporter.ContentTypeRefused | jsonrpc4j/trunk/src/main/java/com/googlecode/jsonrpc4j/spring/JsonServiceExporter.java:97-101 | in strict mode an unlisted content type gives status 400 and -32600 before anything else |
| TrunkExporter.AcceptRefused | jsonrpc4j/trunk/src/main/java/com/googlecode/jsonrpc4j/spring/JsonServiceExporter.java:104-109 | in strict mode a listed content type with a missing or unlisted Accept gives status 400 and -32600 |
| TrunkExporter.LaxIgnoresHeaders | jsonrpc4j/trunk/src/main/java/com/googlecode/jsonrpc4j/spring/JsonServiceExporter.java:97-113 | without strict mode the headers do not matter |
| TrunkExporter.NotificationSilent | jsonrpc4j/trunk/src/main/java/com/googlecode/jsonrpc4j/spring/JsonServiceExporter.java:117-121 | corrected: a notification gets no body whatever happened; any other request that gets that far gets one |
| TrunkExporter.JsonServiceExporter.constructor | jsonrpc4j/trunk/src/main/java/com/googlecode/jsonrpc4j/spring/JsonServiceExporter.java:50-51 | no service methods and strict mode on |
| TrunkExporter.JsonServiceExporter.AfterPropertiesSet | jsonrpc4j/trunk/src/main/java/com/googlecode/jsonrpc4j/spring/JsonServiceExporter.java:56-62 | every interface method joins the set; strict is unchanged |
| TrunkExporter.JsonServiceExporter.SetStrict | jsonrpc4j/trunk/src/main/java/com/googlecode/jsonrpc4j/spring/JsonServiceExporter.java:182-184 | only the strict flag changes |
| TrunkExporter.JsonServiceExporter.FindBinding | jsonrpc4j/trunk/src/main/java/com/googlecode/jsonrpc4j/spring/JsonServiceExporter.java:146-152 | the loop finds the binding of the specification |
| TrunkExporter.JsonServiceExporter.InvokeServiceMethod | jsonrpc4j/trunk/src/main/java/com/googlecode/jsonrpc4j/spring/JsonServiceExporter.java:129-177 | status and response of the invocation specification |
| TrunkExporter.JsonServiceExporter.HandleRequest | jsonrpc4j/trunk/src/main/java/com/googlecode/jsonrpc4j/spring/JsonServiceExporter.java:67-127 | the outcome of the corrected request specification |
| TypeConverters.PrimitiveSupports | jsonrpc4j/src/main/java/com/googlecode/jsonrpc4j/jsonorg/converters/PrimitiveTypeConverter.java:29-34 | the primitive converter supports exactly the primitive classes, `Boolean`, `Number` and its subclasses, and `String`; `Character` and `Object` are not supported |
| TypeConverters.ConverterToJson | jsonrpc4j/src/main/java/com/googlecode/jsonrpc4j/jsonorg/converters/EnumTypeConverter.java:29-31 | the primitive converter hands the object back unchanged; the enum converter gives the constant's name, and fails on anything that is not an enum constant |
| TypeConverters.ConstantNamed | jsonrpc4j/src/main/java/com/googlecode/jsonrpc4j/jsonorg/converters/EnumTypeConverter.java:18-22 | a constant is found exactly when the name is among the constants, and the constant found has that name |
| TypeConverters.EnumFromJson | jsonrpc4j/src/main/java/com/googlecode/jsonrpc4j/jsonorg/converters/EnumTypeConverter.java:16-24 | for an enum class and a non-null object, the result is the constant named by the object's text, or null when no constant has that name; for a class that is no enum, the result is an exception |
| TypeConverters.ConverterFromJson | jsonrpc4j/src/main/java/com/googlecode/jsonrpc4j/jsonorg/converters/PrimitiveTypeConverter.java:15-17 | the primitive converter hands the JSON value back unchanged |
| TypeConverters.EnumConstantFromJson | jsonrpc4j/src/main/java/com/googlecode/jsonrpc4j/jsonorg/converters/EnumTypeConverter.java:16-24 | the loop over the enum constants, which returns at the first match, computes the enum converter's `fromJSON` |
| TypeConverters.CallFromJson | jsonrpc4j/src/main/java/com/googlecode/jsonrpc4j/jsonorg/TypeConverter.java:26-27 | calling any converter's `fromJSON` yields that converter's conversion |
| TypeConverters.EnumRoundTrip | jsonrpc4j/src/main/java/com/googlecode/jsonrpc4j/jsonorg/converters/EnumTypeConverter.java:16-31 | an enum constant becomes its name, and that name reads back as the same constant of the same class |
| TypeConverters.EnumUnknownName | jsonrpc4j/src/main/java/com/googlecode/jsonrpc4j/jsonorg/converters/EnumTypeConverter.java:18-23 | a text that names no constant reads back as null rather than as an error |
| JsonOrgUtil.FirstSupportingFrom | jsonrpc4j/src/main/java/com/googlecode/jsonrpc4j/jsonorg/JSONUtil.java:402-406 | the search from position i finds a converter that supports the class; when it finds none, no converter from position i onward supports the class |
| JsonOrgUtil.FirstSupporting | jsonrpc4j/src/main/java/com/googlecode/jsonrpc4j/jsonorg/JSONUtil.java:382-389 | the converter found supports the class, and none is found exactly when `canConvert` is false |
| JsonOrgUtil.ConvertToJson | jsonrpc4j/src/main/java/com/googlecode/jsonrpc4j/jsonorg/JSONUtil.java:397-408 | null and `JSONObject.NULL` give null; a value of a class no converter supports gives "Unknown object type" |
| JsonOrgUtil.ConvertFromJson | jsonrpc4j/src/main/java/com/googlecode/jsonrpc4j/jsonorg/JSONUtil.java:417-428 | null gives `JSONObject.NULL`; a class no converter supports gives "Unknown object type" |
| JsonOrgUtil.ConvertToAt | jsonrpc4j/src/main/java/com/googlecode/jsonrpc4j/jsonorg/JSONUtil.java:402-405 | when the i-th converter is the first that supports the value's class, `convertToJSON` is that converter's `toJSON` |
| JsonOrgUtil.ConvertFromAt | jsonrpc4j/src/main/java/com/googlecode/jsonrpc4j/jsonorg/JSONUtil.java:422-425 | when the i-th converter is the first that supports the class, `convertFromJSON` is that converter's `fromJSON` |
| JsonOrgUtil.FirstSupportingAt | jsonrpc4j/src/main/java/com/googlecode/jsonrpc4j/jsonorg/JSONUtil.java:383-386 | the search stops at the first converter that supports the class |
| JsonOrgUtil.FirstSupportingAfterRegister | jsonrpc4j/src/main/java/com/googlecode/jsonrpc4j/jsonorg/JSONUtil.java:42-44 | registering a converter puts it first in the search; when it does not support the class, every other converter keeps its turn, one place later |
| JsonOrgUtil.RegisteredFirstWins | jsonrpc4j/src/main/java/com/googlecode/jsonrpc4j/jsonorg/JSONUtil.java:42-44 | the converter registered last converts every value of a class it supports; registering one that does not support the class changes no `convertToJSON` result |
| JsonOrgUtil.RegisteredFirstDecodes | jsonrpc4j/src/main/java/com/googlecode/jsonrpc4j/jsonorg/JSONUtil.java:42-44 | the same for `convertFromJSON`, which searches by the target class |
| JsonOrgUtil.Put | jsonrpc4j/src/main/java/com/googlecode/jsonrpc4j/jsonorg/JSONUtil.java:236-239 | putting null removes the key; putting anything else maps the key to it; every other key keeps its value |
| JsonOrgUtil.ToJson | jsonrpc4j/src/main/java/com/googlecode/jsonrpc4j/jsonorg/JSONUtil.java:148-176 | null converts to null |
| JsonOrgUtil.ToJsonArray | jsonrpc4j/src/main/java/com/googlecode/jsonrpc4j/jsonorg/JSONUtil.java:185-208 | past the depth limit the result is the "MAX_OBJECT_DEPTH_LEVEL met" exception; otherwise it is a JSON array with one entry per element |
| JsonOrgUtil.ToJsonElements | jsonrpc4j/src/main/java/com/googlecode/jsonrpc4j/jsonorg/JSONUtil.java:202-204 | a successful conversion of the first k elements has k entries |
| JsonOrgUtil.ToJsonObject | jsonrpc4j/src/main/java/com/googlecode/jsonrpc4j/jsonorg/JSONUtil.java:217-244 | past the depth limit the result is the depth exception; otherwise it is a JSON object |
| JsonOrgUtil.ElementsShape | jsonrpc4j/src/main/java/com/googlecode/jsonrpc4j/jsonorg/JSONUtil.java:202-204 | each entry of the array is its element converted one level deeper |
| JsonOrgUtil.ArrayShape | jsonrpc4j/src/main/java/com/googlecode/jsonrpc4j/jsonorg/JSONUtil.java:156-166 | an array or collection becomes a JSON array of the same length, whose i-th entry is the i-th element converted |
| JsonOrgUtil.PropertiesShape | jsonrpc4j/src/main/java/com/googlecode/jsonrpc4j/jsonorg/JSONUtil.java:235-240 | after putting the first k properties, every property converted; a key is present exactly for a property whose converted value is not null, and holds that value |
| JsonOrgUtil.PropertiesKeys | jsonrpc4j/src/main/java/com/googlecode/jsonrpc4j/jsonorg/JSONUtil.java:235-240 | every key of the resulting JSON object is the name of one of the properties put |
| JsonOrgUtil.ObjectShape | jsonrpc4j/src/main/java/com/googlecode/jsonrpc4j/jsonorg/JSONUtil.java:172-174 | a bean no converter supports becomes a JSON object holding exactly its properties whose converted value is not null, and never a null member |
| JsonOrgUtil.TooDeepFails | jsonrpc4j/src/main/java/com/googlecode/jsonrpc4j/jsonorg/JSONUtil.java:189-191 | a value that nests containers deeper than the limit allows from the given level fails to convert |
| JsonOrgUtil.ElementsTooDeepFail | jsonrpc4j/src/main/java/com/googlecode/jsonrpc4j/jsonorg/JSONUtil.java:202-204 | an element nested too deep makes the whole array fail |
| JsonOrgUtil.PropertiesTooDeepFail | jsonrpc4j/src/main/java/com/googlecode/jsonrpc4j/jsonorg/JSONUtil.java:235-240 | a property nested too deep makes the whole object fail |
| JsonOrgUtil.ShallowConverts | jsonrpc4j/src/main/java/com/googlecode/jsonrpc4j/jsonorg/JSONUtil.java:148-176 | a clean value within the depth limit converts |
| JsonOrgUtil.ElementsConvert | jsonrpc4j/src/main/java/com/googlecode/jsonrpc4j/jsonorg/JSONUtil.java:202-204 | clean elements within the depth limit all convert |
| JsonOrgUtil.PropertiesConvert | jsonrpc4j/src/main/java/com/googlecode/jsonrpc4j/jsonorg/JSONUtil.java:235-240 | clean properties within the depth limit all convert |
| JsonOrgUtil.DepthLimit | jsonrpc4j/src/main/java/com/googlecode/jsonrpc4j/jsonorg/JSONUtil.java:29 | `toJSON(object)` fails on every value nesting more than MAX_OBJECT_DEPTH_LEVEL + 1 containers; a clean value converts exactly when it nests at most that many |
| JsonOrgUtil.FromJson | jsonrpc4j/src/main/java/com/googlecode/jsonrpc4j/jsonorg/JSONUtil.java:115-138 | null and `JSONObject.NULL` give null |
| JsonOrgUtil.FromJsonArray | jsonrpc4j/src/main/java/com/googlecode/jsonrpc4j/jsonorg/JSONUtil.java:359-375 | a primitive component type gives a `ClassCastException`; success gives an array of the component type with one entry per element |
| JsonOrgUtil.FromJsonElements | jsonrpc4j/src/main/java/com/googlecode/jsonrpc4j/jsonorg/JSONUtil.java:369-371 | a successful decoding of the first k entries has k values |
| JsonOrgUtil.FromJsonObject | jsonrpc4j/src/main/java/com/googlecode/jsonrpc4j/jsonorg/JSONUtil.java:255-275 | success gives a new bean of the target class with one value per property |
| JsonOrgUtil.SetProperties | jsonrpc4j/src/main/java/com/googlecode/jsonrpc4j/jsonorg/JSONUtil.java:268-271 | a successful decoding of the first k properties has k values |
| JsonOrgUtil.RoundTrip | jsonrpc4j/src/main/java/com/googlecode/jsonrpc4j/jsonorg/JSONUtil.java:101-138 | with the built-in converters, a string, boolean, number, enum constant or array of them nested within the depth limit converts to a non-null JSON value, and `fromJSON` with its class gives it back |
| JsonOrgUtil.EnumConstantRoundTrip | jsonrpc4j/src/main/java/com/googlecode/jsonrpc4j/jsonorg/JSONUtil.java:131-132 | an enum constant becomes its name, and the name reads back as the constant |
| JsonOrgUtil.PrimitiveRoundTrip | jsonrpc4j/src/main/java/com/googlecode/jsonrpc4j/jsonorg/JSONUtil.java:169-170 | a primitive value is its own JSON form, and reads back as itself |
| JsonOrgUtil.PrimitiveConverterFirst | jsonrpc4j/src/main/java/com/googlecode/jsonrpc4j/jsonorg/JSONUtil.java:31-36 | in the default registry the primitive converter is the only one that supports a primitive value's class, so it is the one used |
| JsonOrgUtil.ArrayRoundTrip | jsonrpc4j/src/main/java/com/googlecode/jsonrpc4j/jsonorg/JSONUtil.java:125-127 | an array within the depth limit becomes a JSON array that reads back as the same array |
| JsonOrgUtil.ElementsRoundTrip | jsonrpc4j/src/main/java/com/googlecode/jsonrpc4j/jsonorg/JSONUtil.java:125-127 | every element of a typed array within the depth limit converts to a non-null JSON value that decodes back to it and that the array can store |
| JsonOrgUtil.ElementsDecodeBack | jsonrpc4j/src/main/java/com/googlecode/jsonrpc4j/jsonorg/JSONUtil.java:369-371 | when each element survives the round trip on its own, the converted JSON array decodes back to exactly the original elements, in order |
| JsonOrgUtil.ToJsonElementsOk | jsonrpc4j/src/main/java/com/googlecode/jsonrpc4j/jsonorg/JSONUtil.java:202-204 | the array converts when each of its elements converts |
| JsonOrgUtil.FromJsonElementsPointwise | jsonrpc4j/src/main/java/com/googlecode/jsonrpc4j/jsonorg/JSONUtil.java:369-371 | entries that each decode to a storable value decode, in order, to exactly those values |
| JsonOrgUtil.FromJsonElementsPrefix | jsonrpc4j/src/main/java/com/googlecode/jsonrpc4j/jsonorg/JSONUtil.java:369-371 | decoding the first k entries looks at no entry past them |
| JsonOrgUtil.ToJsonString | jsonrpc4j/src/main/java/com/googlecode/jsonrpc4j/jsonorg/JSONUtil.java:64-82 | null gives "null"; a boolean gives "true" or "false"; a string or an enum constant gives its text quoted by org.json |
| JsonOrgUtil.NumberTextRoundTrip | jsonrpc4j/src/main/java/com/googlecode/jsonrpc4j/jsonorg/JSONUtil.java:69-71 | the text given for a number reads back as the same number |
| JsonOrgUtil.JSONUtil.constructor | jsonrpc4j/src/main/java/com/googlecode/jsonrpc4j/jsonorg/JSONUtil.java:30-36 | the static initialiser leaves the registry holding the enum, date, URL and primitive converters, in that order |
| JsonOrgUtil.JSONUtil.RegisterTypeConverter | jsonrpc4j/src/main/java/com/googlecode/jsonrpc4j/jsonorg/JSONUtil.java:42-44 | the new converter goes to the front of the list |
| JsonOrgUtil.JSONUtil.CanConvert | jsonrpc4j/src/main/java/com/googlecode/jsonrpc4j/jsonorg/JSONUtil.java:382-389 | the answer is true exactly when some registered converter supports the class |
| JsonOrgUtil.JSONUtil.ConvertToJSON | jsonrpc4j/src/main/java/com/googlecode/jsonrpc4j/jsonorg/JSONUtil.java:397-408 | the loop over the converters computes `convertToJSON` |
| JsonOrgUtil.JSONUtil.ConvertFromJSON | jsonrpc4j/src/main/java/com/googlecode/jsonrpc4j/jsonorg/JSONUtil.java:417-428 | the loop over the converters computes `convertFromJSON` |
| JsonOrgUtil.JSONUtil.ToJSON | jsonrpc4j/src/main/java/com/googlecode/jsonrpc4j/jsonorg/JSONUtil.java:148-176 | the recursive conversion computes `toJSON` at the given level |
| JsonOrgUtil.JSONUtil.ToJSONArray | jsonrpc4j/src/main/java/com/googlecode/jsonrpc4j/jsonorg/JSONUtil.java:185-208 | the loop over the elements computes `toJSONArray` |
| JsonOrgUtil.JSONUtil.ToJSONObject | jsonrpc4j/src/main/java/com/googlecode/jsonrpc4j/jsonorg/JSONUtil.java:217-244 | the loop over the bean properties computes `toJSONObject` |
| JsonOrgUtil.JSONUtil.FromJSON | jsonrpc4j/src/main/java/com/googlecode/jsonrpc4j/jsonorg/JSONUtil.java:115-138 | the recursive decoding computes `fromJSON` |
| JsonOrgUtil.JSONUtil.FromJSONArrayToArray | jsonrpc4j/src/main/java/com/googlecode/jsonrpc4j/jsonorg/JSONUtil.java:359-375 | the loop over the entries computes `fromJSONArrayToArray` |
| JsonOrgUtil.JSONUtil.FromJSONObject | jsonrpc4j/src/main/java/com/googlecode/jsonrpc4j/jsonorg/JSONUtil.java:255-275 | the loop over the properties computes `fromJSONObject` |
| JsonOrgUtil.ElementFailureStays | jsonrpc4j/src/main/java/com/googlecode/jsonrpc4j/jsonorg/JSONUtil.java:202-204 | once an element fails, the array fails with that element's exception, however many elements follow |
| JsonOrgUtil.PropertyFailureStays | jsonrpc4j/src/main/java/com/googlecode/jsonrpc4j/jsonorg/JSONUtil.java:235-240 | once a property fails, the object fails with that property's exception |
| JsonOrgUtil.EntryFailureStays | jsonrpc4j/src/main/java/com/googlecode/jsonrpc4j/jsonorg/JSONUtil.java:369-371 | once an entry fails to decode, the array decoding fails the same way |
| JsonOrgUtil.SetterFailureStays | jsonrpc4j/src/main/java/com/googlecode/jsonrpc4j/jsonorg/JSONUtil.java:268-271 | once a property fails to decode, the bean decoding fails the same way |
| JsonOrgEngine.RequestFields | jsonrpc4j/src/main/java/com/googlecode/jsonrpc4j/jsonorg/JsonOrgJsonEngine.java:32-36 | the request object holds `id` as text, `jsonrpc` "2.0", `method` unless the name is null and `params` unless the converted parameters are null, and no other member |
| JsonOrgEngine.CreateRpcRequest | jsonrpc4j/src/main/java/com/googlecode/jsonrpc4j/jsonorg/JsonOrgJsonEngine.java:29-41 | the request built from an argument array has the random number's text as id and the arguments converted by `JSONUtil.toJSON`, and any conversion failure is wrapped in a `JsonException` |
| JsonOrgEngine.ConvertedArguments | jsonrpc4j/src/main/java/com/googlecode/jsonrpc4j/jsonorg/JsonOrgJsonEngine.java:51-54 | the `params` object holds exactly the named arguments whose converted value is not null, each mapped to its converted value |
| JsonOrgEngine.CreateNamedRpcRequest | jsonrpc4j/src/main/java/com/googlecode/jsonrpc4j/jsonorg/JsonOrgJsonEngine.java:43-60 | a null argument map gives a wrapped `NullPointerException`; otherwise the request is built exactly when every argument converts, it holds the converted arguments as `params`, and a failure comes from some argument that does not convert |
| JsonOrgEngine.Member | jsonrpc4j/src/main/java/com/googlecode/jsonrpc4j/jsonorg/JsonOrgJsonEngine.java:85 | `get(key)` succeeds exactly on a JSON object holding the key and gives its value; a missing key throws `JSONException`, a null reference `NullPointerException` |
| JsonOrgEngine.MemberText | jsonrpc4j/src/main/java/com/googlecode/jsonrpc4j/jsonorg/JsonOrgJsonEngine.java:62-69 | `getString(key)` succeeds exactly when the member is present and gives its text; a failure is the lookup's exception wrapped in a `JsonException` |
| JsonOrgEngine.GetIdFromRpcRequest | jsonrpc4j/src/main/java/com/googlecode/jsonrpc4j/jsonorg/JsonOrgJsonEngine.java:62-69 | succeeds exactly on a JSON object holding `id` and gives its text; any failure is a `JsonException` |
| JsonOrgEngine.GetMethodNameFromRpcRequest | jsonrpc4j/src/main/java/com/googlecode/jsonrpc4j/jsonorg/JsonOrgJsonEngine.java:91-98 | succeeds exactly on a JSON object holding `method` and gives its text; any failure is a `JsonException` |
| JsonOrgEngine.GetJsonResultFromResponse | jsonrpc4j/src/main/java/com/googlecode/jsonrpc4j/jsonorg/JsonOrgJsonEngine.java:82-89 | the result is the `result` member exactly when the response is a JSON object holding it; otherwise a `JsonException` |
| JsonOrgEngine.GetParameterCountFromRpcRequest | jsonrpc4j/src/main/java/com/googlecode/jsonrpc4j/jsonorg/JsonOrgJsonEngine.java:100-116 | no `params` gives 0, a JSON array its length, a JSON object its member count; any other `params` gives a wrapped `ClassCastException`, and success implies the request is a JSON object |
| JsonOrgEngine.GetJsonErrorFromResponse | jsonrpc4j/src/main/java/com/googlecode/jsonrpc4j/jsonorg/JsonOrgJsonEngine.java:71-80 | the `error` member is bound to `JsonRpcError` by `JSONUtil.fromJSON`, and each failure is wrapped in a `JsonException` |
| JsonOrgEngine.IndexedRequestReadsBack | jsonrpc4j/src/main/java/com/googlecode/jsonrpc4j/jsonorg/JsonOrgJsonEngine.java:29-116 | a request built from an argument array reads back through the engine: its id is the random number's text, its method the name (a `JsonException` when the name was null), its parameter count the number of arguments, and it is not a notification |
| JsonOrgEngine.ShallowArgumentsAccepted | jsonrpc4j/src/main/java/com/googlecode/jsonrpc4j/jsonorg/JsonOrgJsonEngine.java:36 | arguments that are convertible and nested within the depth limit give a request |
| JsonOrgEngine.DeepArgumentsRefused | jsonrpc4j/src/main/java/com/googlecode/jsonrpc4j/jsonorg/JsonOrgJsonEngine.java:36-39 | arguments nested beyond the depth limit give a `JsonException` instead of a request |
| JsonOrgEngine.NamedRequestCount | jsonrpc4j/src/main/java/com/googlecode/jsonrpc4j/jsonorg/JsonOrgJsonEngine.java:51-55 | the parameter count of a request built from named arguments is the number of arguments whose converted value is not null, and so the number of arguments when none converts to null |
| JsonOrgEngine.ErrorDecodes | jsonrpc4j/src/main/java/com/googlecode/jsonrpc4j/jsonorg/JsonOrgJsonEngine.java:74-76 | an error object with an integer code, a text message and a null `data` decodes to the `JsonRpcError` holding that code and message |
| JsonOrgEngine.ErrorMembersSet | jsonrpc4j/trunk/src/main/java/com/googlecode/jsonrpc4j/JsonRpcError.java:10-77 | setting the three properties of `JsonRpcError` from such an error object gives the code, the message and null |
| JsonOrgEngine.DefaultsDecode | jsonrpc4j/src/main/java/com/googlecode/jsonrpc4j/jsonorg/JSONUtil.java:131-132 | the built-in converters give an integer or a text back unchanged |
| JsonOrgEngine.ErrorClassNotConverted | jsonrpc4j/src/main/java/com/googlecode/jsonrpc4j/jsonorg/JSONUtil.java:31-36 | no built-in converter supports `JsonRpcError`, so it is decoded as a bean |
| JsonOrgEngine.ErrorWithoutDataRejected | jsonrpc4j/src/main/java/com/googlecode/jsonrpc4j/jsonorg/JsonOrgJsonEngine.java:74-76 | an error object without a `data` member, which JSON-RPC 2.0 allows, cannot be decoded |
| JsonOrgEngine.StubPredicatesAnswerFalse | jsonrpc4j/src/main/java/com/googlecode/jsonrpc4j/jsonorg/JsonOrgJsonEngine.java:136-150 | `isNotification`, `isRpcBatchRequest` and `isRpcRequestParametersIndexed` answer false for every value |
| JsonOrgEngine.IsNotification | jsonrpc4j/src/main/java/com/googlecode/jsonrpc4j/jsonorg/JsonOrgJsonEngine.java:136-139 | the stub never recognises a notification |
| JsonRpcJs.Member | jsonrpc4j/src/main/javascript/jsonrpc.js:28-33 | reading `response.error`, `.result` or `.id` gives the object's own member, and undefined when there is none |
| JsonRpcJs.HandleRpcResponse | jsonrpc4j/src/main/javascript/jsonrpc.js:27-35 | the failure callback is called exactly when `error` is truthy; otherwise the success callback gets the result exactly when `result` is truthy, and no result otherwise; the id passed is the response's `id`; a null or undefined response raises a `TypeError` |
| JsonRpcJs.ErrorTakesPrecedence | jsonrpc4j/src/main/javascript/jsonrpc.js:28-29 | a truthy `error` reaches the failure callback whatever `result` holds |
| JsonRpcJs.FalsyResultIsDropped | jsonrpc4j/src/main/javascript/jsonrpc.js:30-34 | a falsy result such as 0, false, "" or null reaches the success callback exactly as a response without a result does |
| JsonRpcJs.Parse | jsonrpc4j/src/main/javascript/jsonrpc.js:105 | `evalJSON` never gives undefined or a function |
| JsonRpcJs.Serialize | jsonrpc4j/src/main/javascript/jsonrpc.js:97 | a value has JSON text exactly when it is neither undefined nor a function |
| JsonRpcJs.SerializeParse | jsonrpc4j/src/main/javascript/jsonrpc.js:97-105 | every JSON text parsed and written again is the same text |
| JsonRpcJs.TruthyParse | jsonrpc4j/src/main/javascript/jsonrpc.js:28-30 | a parsed JSON value is truthy exactly when it is not null, false, 0 or "" |
| JsonRpcJs.ParsedResponseDispatch | jsonrpc4j/src/main/javascript/jsonrpc.js:104-106 | a parsed response whose `error` is an object reaches the failure callback; without an error, the success callback gets the `result` exactly when it is truthy, and gets no result otherwise |
| JsonRpcJs.CallRequest | jsonrpc4j/src/main/javascript/jsonrpc.js:47-52 | the call request holds exactly `jsonrpc` "2.0", `method`, `id` and `params` |
| JsonRpcJs.NotifyRequest | jsonrpc4j/src/main/javascript/jsonrpc.js:61-65 | the notification request holds exactly `jsonrpc` "2.0", `method` and `params`, and no `id` |
| JsonRpcJs.RequestsAsTheServerSeesThem | jsonrpc4j/src/main/javascript/jsonrpc.js:42-67 | a notification request always has JSON text, and a jsonrpc4j server sees it as a notification; a numbered call request keeps its numeric id and is not a notification |
| JsonRpcJs.IssuedIdsIncrease | jsonrpc4j/src/main/javascript/jsonrpc.js:37-40 | the ids issued start at 1 and strictly increase, so no two calls share an id |
| JsonRpcJs.JsonRpc.constructor | jsonrpc4j/src/main/javascript/jsonrpc.js:3-16 | the client starts with `_lastId` 0, no Ajax hook registered, nothing posted and no id issued |
| JsonRpcJs.JsonRpc.RegisterPrototypeJs | jsonrpc4j/src/main/javascript/jsonrpc.js:92-114 | afterwards a hook is registered; the counter and what was posted are unchanged |
| JsonRpcJs.JsonRpc.GenerateId | jsonrpc4j/src/main/javascript/jsonrpc.js:37-40 | the id returned is the previous `_lastId` plus one, becomes the new `_lastId`, and is larger than every id issued before |
| JsonRpcJs.JsonRpc.AsyncAjaxPost | jsonrpc4j/src/main/javascript/jsonrpc.js:8-11 | with a hook registered, the options are posted; without one, the call throws "No registerd hook for JSONRPC.config.asyncAjaxPost" and nothing is posted |
| JsonRpcJs.JsonRpc.Call | jsonrpc4j/src/main/javascript/jsonrpc.js:42-54 | the hook gets the URL, both callbacks and the call request, or the call throws when there is no hook |
| JsonRpcJs.JsonRpc.Notify | jsonrpc4j/src/main/javascript/jsonrpc.js:56-67 | the hook gets the URL, both callbacks and the notification request, or the call throws when there is no hook |
| JsonRpcJs.JsonRpc.CreateCallFunctionAsWritten | jsonrpc4j/src/main/javascript/jsonrpc.js:69-79 | creating the function takes an id at once and posts one call with undefined params and callbacks; what it returns is an empty object, not a function |
| JsonRpcJs.JsonRpc.CreateNotifyFunctionAsWritten | jsonrpc4j/src/main/javascript/jsonrpc.js:81-90 | creating the function posts one notification at once with undefined params and callbacks; what it returns is an empty object, not a function |
| JsonRpcJs.JsonRpc.InvokeCallFunction | jsonrpc4j/src/main/javascript/jsonrpc.js:70-78 | each call of the intended function takes a fresh id, larger than every id issued before, and posts the caller's params and callbacks |
| JsonRpcJs.JsonRpc.InvokeNotifyFunction | jsonrpc4j/src/main/javascript/jsonrpc.js:82-89 | each call of the intended function posts one notification with the caller's params and callbacks, and takes no id |

## Left out

- Transport and streams are not modelled:
  - the servlet and portlet `handle` overloads;
  - the HTTP GET `createInputStream` path with its Base64 and URL decoding;
  - the HTTP clients and `JsonProxyFactoryBean`;
  - the stream wrappers, `flush` and the content length.
- Input and output are values instead:
  - the input is an already parsed tree, or a parse failure;
  - the output is the sequence of values written (`JsonSink`).
- Concurrency is not modelled: the socket exporter, its thread pool, and the unsynchronised static caches of `ReflectionUtil`. The caches are modelled sequentially.
- Framework wiring is not modelled:
  - the engine factory beans;
  - the Spring `applicationContext` lookup of the JSON engine;
  - the dynamic proxies.
- Codec internals are not modelled. Jackson parsing and data binding, json-lib's `toBean` and org.json's text form (`JSONObject.toString`, `quote`, `numberToString`) are oracles. `JSONUtil.fromJSONString`, which is the org.json parser, is not modelled.
- Bean introspection (`JSONUtil.getBeanPropertyNames`) is not modelled: a bean value carries its property names and values, in discovery order.
- `JSONUtil.fromJSONArrayToCollection` is an oracle (`Reflection`). Its element type comes from generic type arguments, which the model does not represent.
- `Method.invoke` and the service handler are oracles that give a result or a throwable.
- Floating point is not modelled:
  - JSON numbers are integers;
  - the `float`/`double` primitive types and the floating-point branches of the trunk `convertType` are not in the model;
  - in `jsonrpc.js`, numbers are integers or NaN, so the `_lastId` counter never loses precision past 2^53.
- `Date` and `URL` conversion is done by oracles (`Platform`). That covers date formatting and parsing with a pattern, and deciding whether a text is a well-formed URL.
- Nondeterminism becomes parameters:
  - the values of `Random.nextInt`/`nextLong` and `UUID.randomUUID` used as ids;
  - the iteration order of a `HashSet` of methods, a chooser that picks some member.
- Logging and exception message texts produced inside libraries are not modelled. The model carries the exception class and the message where the code itself builds it.
- `JsonRpcServer`: the wrapping of a rethrown exception into a `RuntimeException` is only modelled as a failure outcome after the write. Its class is not modelled.
- The alias serializer and deserializer factories and the engines' `addTypeAlias`, `addJsonSerializer` and `addJsonDeserializer` are not modelled. Neither are the setters of Jackson features and date formats.
- The null-returning stubs of `JsonOrgJsonEngine` are not modelled: the parameter accessors, `getRpcBatchIterator`, `jsonToObject`, `objectToJson`, `readJson`, the validators and `writeJson`. Only their three boolean siblings are modelled, by `JsonOrgEngine.StubPredicatesAnswerFalse`.
- Parts of `jsonrpc.js` are not modelled:
  - `_isDefined` (an `eval` of `"Prototype"`);
  - `_invalidResponse` and the `alert` of `config.errorMessage`, except for the thrown message;
  - the Prototype `Ajax.Request` transport with its `onSuccess`/`onFailure` handlers. The model records the options handed to the hook and dispatches a parsed response by `JsonRpcJs.HandleRpcResponse`.
- The text written by the trunk's `writeResponse`/`readRequest` (json-lib serialization) is not modelled.
- JsonOrgEngine.ErrorMembersSet: assumes that `JsonRpcError`'s properties are discovered in the order code, message, data. `Class.getMethods` promises no order.
- TrunkRpcUtils.FromText: the model's `BigDecimal` and `BigInteger` values are integers, so for those targets only text of the form `-?digits` converts. `new BigDecimal` also accepts a leading '+', a fraction and an exponent ("+5", "1.5", "1e3"), and `new BigInteger` a leading '+'; the model refuses those texts with `NumberFormatException`. For every integral target (`Common.ParseDecimal`), the text is read as ASCII digits with an optional '-': Java's `parseXxx` also takes a leading '+' and non-ASCII Unicode decimal digits, which the model refuses.
- TrunkExporter.ReadRequest: a body that json-lib reads as its null `JSONObject` (the text `null`) is treated like any other non-object body. The exceptions json-lib raises on that null object are not modelled.
- JsonOrgUtil.RoundTrip: covers strings, booleans, integral numbers, enum constants and arrays of them with the built-in converters. It does not cover beans and collections, whose decoding goes through reflection outside the model.
- JsonOrgUtil.ToJsonString: states the text only for null, booleans, strings and enum constants. For numbers it proves the text reads back as the same number (`JsonOrgUtil.NumberTextRoundTrip`). It states nothing for org.json containers, whose text is org.json's.
- JsonOrgUtil.ClassText: `Class.toString()` does not tell interfaces from classes in the model.
- JsonRpcJs.Serialize: the request body follows `JSON.stringify`. The JSON output of Prototype's `$H(...).toJSON()` is assumed to agree with it.

## Findings

| source | as written | input that shows it | evidently intended | confidence | as-written member | corrected member |
|---|---|---|---|---|---|---|
| jsonrpc4j/src/main/java/com/googlecode/jsonrpc4j/spring/Assertions.java:29-32 | `isFalse(bool, code, message, data)` passes `null` instead of `data` to `isTrue` | `isFalse(true, 1, "m", "d")` throws an exception whose data is null | the exception carries the given data, as `isTrue` does | not executed | Assertions.IsFalse, Assertions.IsFalseDropsData | Assertions.IsFalseKeepingData |
| jsonrpc4j/src/main/java/com/googlecode/jsonrpc4j/spring/Assertions.java:49-52 | `notNull(obj, code, message, data)` passes `null` instead of `data` to `isTrue` | `notNull(null, 1, "m", "d")` throws an exception whose data is null | the exception carries the given data | not executed | Assertions.NotNull, Assertions.NotNullDropsData | Assertions.NotNullKeepingData |
| jsonrpc4j/trunk/src/main/java/com/googlecode/jsonrpc4j/JsonRpcUtils.java:95-98 | `isNotification` joins "no id key" and "empty id text" with `&&`, and `getString` throws on the missing key | `{"jsonrpc":"2.0","method":"m"}`: the test throws instead of answering true; no request is ever recognised as a notification | a request is a notification when the id is missing or empty, the two tests joined by "or" | not executed | TrunkRpcUtils.IsNotificationAsWritten, TrunkRpcUtils.NotificationNeverRecognised | TrunkRpcUtils.IsNotification, TrunkRpcUtils.NotificationIffNoId |
| jsonrpc4j/trunk/src/main/java/com/googlecode/jsonrpc4j/spring/JsonServiceExporter.java:86-121 | after a parse error the request is null, and line 119 tests it with `isNotification`; a request without an id already fails at `getId` (line 88) | an unparseable body: the -32700 response is never written; `{"jsonrpc":"2.0","method":"m"}`: the exporter throws | a parse error is answered with -32700, and a notification is handled without writing a response | not executed | TrunkExporter.HandleRequestAsWritten, TrunkExporter.ParseErrorNeverWritten, TrunkExporter.NotificationFailsAsWritten | TrunkExporter.HandleRequestSpec, TrunkExporter.ParseErrorAnswered, TrunkExporter.NotificationSilent |
| jsonrpc4j/trunk/src/main/java/com/googlecode/jsonrpc4j/jackson/JacksonJsonEngine.java:176-181 | `isNotification` calls `isNull()` on `get("id")`, which is null when the member is absent | `{"jsonrpc":"2.0","method":"m"}` throws a `NullPointerException` | a missing id makes a notification, as in the later engine | not executed | TrunkJacksonEngine.IsNotification, TrunkJacksonEngine.NotificationWithoutIdThrows | JacksonEngine.IsNotification, JacksonEngine.NotificationIffNoId |
| jsonrpc4j/src/main/javascript/jsonrpc.js:69-79 | `createCallFunction` returns `new function(...) {...}`, which runs the body at once and yields an empty object | `createCallFunction(url, "m")` sends one call with undefined params and callbacks, and returns an object that cannot be called | return the function itself; each call takes a fresh id and sends the caller's params | not executed | JsonRpcJs.JsonRpc.CreateCallFunctionAsWritten | JsonRpcJs.JsonRpc.InvokeCallFunction |
| jsonrpc4j/src/main/javascript/jsonrpc.js:81-90 | `createNotifyFunction` has the same `new function` | `createNotifyFunction(url, "m")` sends one notification at once and returns an empty object | return the function itself; each call sends one notification | not executed | JsonRpcJs.JsonRpc.CreateNotifyFunctionAsWritten | JsonRpcJs.JsonRpc.InvokeNotifyFunction |

# Cloudflare Access interceptor and fake generator repository

This project models two small stateful components of the Bitwarden Android client.

**`CloudflareInterceptor`** is the OkHttp interceptor that adds Cloudflare Access credentials to every outbound API request. It holds two mutable strings, `cloudflareClientId` and `cloudflareClientSecret`, which both start out empty. On each request it does one of two things:

- it forwards the request unchanged, or
- it forwards a copy with the two Cloudflare Access headers set to the stored values.

The two header names are defined in a file that is not part of this model. The model assumes they are `CF-Access-Client-Id` and `CF-Access-Client-Secret`, and its proofs rely only on the two names being different.

The model has three parts:

- The class `Cloudflare.CloudflareInterceptor` holds the two fields. Its setters are methods that assign them.
- The function `Cloudflare.Forward` computes the forwarded request from the two fields and the incoming request.
- The method `Intercept` hands that request to the chain.

The guard is modelled exactly as written: `cloudflareClientSecret.isNotEmpty() && cloudflareClientSecret.isNotEmpty()`. It tests the secret twice and never tests the client ID. So a non-empty secret with an empty client ID still sends an ID header whose value is `""`. The doubled operand suggests that "both ID and secret non-empty" may have been meant. The model follows the code as written, and the lemmas and client methods about the empty-ID case show what that means.

**`FakeGeneratorRepository`** is the test double for the generator repository. It has two slots:

- the result that every `generatePassword` call returns, initially `Success("updatedText")`;
- the saved password-generation options, initially `null`.

It is modelled as the class `Generator.FakeGeneratorRepository`, with one method per Kotlin function. The request and options types come from a library outside this model. They are type parameters of the class. The properties that involve several calls are stated as small client methods. Each one builds a fresh fake, makes a sequence of calls and promises the values it reads back:

- read-your-write;
- last write wins;
- a configured result stays until it is replaced;
- setting the mock options to `None` clears the slot;
- `save` and `setMock(Some(_))` have the same effect.

**HTTP layer (module `Http`).** A request's headers are an ordered list of name/value pairs, as OkHttp keeps them, and one name may occur several times. `Request.Builder.header(name, value)` is `Http.Set`. It removes every pair with that name and appends one new pair. Like OkHttp's `Headers.Builder.set`, it stores the value trimmed (`Http.Trim`): spaces and tabs at both ends are dropped. OkHttp's value check rejects every other whitespace character before trimming, so these two are the only ones that matter. So a credential goes out verbatim only when it has no blanks at its ends, and a secret made only of blanks passes the guard but goes out as an empty header. `Http.Values` views a header list as a map from a name to its list of values. With this representation, "set, not appended" is a real property. It is stated by `Http.SetIdempotent` and by `Cloudflare.ForwardIdempotent`: running the interceptor on a request it has already rewritten gives back the same request, header order included. `Http.Chain` stands in for `Interceptor.Chain`:

- `request` is `chain.request()`;
- `Proceed` appends the request it forwards to `proceeded`;
- `Proceed` returns `server(r)`, which is what the rest of the chain answers.

## Model

| member | source | states |
|---|---|---|
| `Http.Set` | app/src/main/java/com/x8bit/bitwarden/data/platform/datasource/network/interceptor/CloudflareInterceptor.kt:28-29 | after `header(name, value)`, `name` carries exactly one value, the trimmed `value`, in the last pair; every other name keeps its values |
| `Http.Trim` | app/src/main/java/com/x8bit/bitwarden/data/platform/datasource/network/interceptor/CloudflareInterceptor.kt:28-29 | the value stored by `header()` is the piece of the given value left once spaces and tabs at both ends are dropped, with no blank left at either end |
| `Http.RemoveAll` | app/src/main/java/com/x8bit/bitwarden/data/platform/datasource/network/interceptor/CloudflareInterceptor.kt:28-29 | the replacement step drops exactly the pairs with the given name (membership both ways) and leaves every other name's values as they were |
| `Http.Request.WithHeader` | app/src/main/java/com/x8bit/bitwarden/data/platform/datasource/network/interceptor/CloudflareInterceptor.kt:26-30 | rebuilding a request with one header keeps its URL, method and body, gives the header exactly the new value as trimmed by the header builder, and keeps every other header |
| `Http.SetIdempotent` | app/src/main/java/com/x8bit/bitwarden/data/platform/datasource/network/interceptor/CloudflareInterceptor.kt:28-29 | setting a header twice to the same value is setting it once, so headers are replaced and not appended |
| `Http.Chain.Proceed` | app/src/main/java/com/x8bit/bitwarden/data/platform/datasource/network/interceptor/CloudflareInterceptor.kt:25-33 | `chain.proceed(r)` records `r` as forwarded and returns the rest of the chain's answer to `r` |
| `Cloudflare.Forward` | app/src/main/java/com/x8bit/bitwarden/data/platform/datasource/network/interceptor/CloudflareInterceptor.kt:23-35 | with an empty secret the request goes out unchanged, whatever the ID; with a non-empty secret the ID header carries exactly the stored ID and the secret header exactly the stored secret, each trimmed as the header builder stores values; every other header keeps its values; URL, method and body never change |
| `Cloudflare.ForwardVerbatim` | app/src/main/java/com/x8bit/bitwarden/data/platform/datasource/network/interceptor/CloudflareInterceptor.kt:24-29 | a non-empty secret and an ID without blanks at their ends go out verbatim as the only values of the two headers |
| `Cloudflare.BlankSecretSentEmpty` | app/src/main/java/com/x8bit/bitwarden/data/platform/datasource/network/interceptor/CloudflareInterceptor.kt:24-29 | a secret made only of spaces and tabs passes the guard, yet the secret header goes out with the empty value |
| `Cloudflare.GuardIgnoresClientId` | app/src/main/java/com/x8bit/bitwarden/data/platform/datasource/network/interceptor/CloudflareInterceptor.kt:24 | the decision to attach headers depends on the secret alone: it holds exactly when the secret is non-empty, for every client ID |
| `Cloudflare.EmptyIdStillSent` | app/src/main/java/com/x8bit/bitwarden/data/platform/datasource/network/interceptor/CloudflareInterceptor.kt:24-29 | a non-empty secret with an empty client ID still yields an ID header whose only value is `""`, next to the trimmed secret |
| `Cloudflare.ForwardIdempotent` | app/src/main/java/com/x8bit/bitwarden/data/platform/datasource/network/interceptor/CloudflareInterceptor.kt:26-30 | intercepting an already intercepted request with the same credentials changes nothing, not even the header order |
| `Cloudflare.CloudflareInterceptor.constructor` | app/src/main/java/com/x8bit/bitwarden/data/platform/datasource/network/interceptor/CloudflareInterceptor.kt:11-17 | a new interceptor has an empty client ID and an empty secret |
| `Cloudflare.CloudflareInterceptor.SetCloudflareClientId` | app/src/main/java/com/x8bit/bitwarden/data/platform/datasource/network/interceptor/CloudflareInterceptor.kt:12-16 | assigning the client ID stores exactly the assigned value and leaves the secret unchanged |
| `Cloudflare.CloudflareInterceptor.SetCloudflareClientSecret` | app/src/main/java/com/x8bit/bitwarden/data/platform/datasource/network/interceptor/CloudflareInterceptor.kt:17-21 | assigning the secret stores exactly the assigned value and leaves the client ID unchanged |
| `Cloudflare.CloudflareInterceptor.Intercept` | app/src/main/java/com/x8bit/bitwarden/data/platform/datasource/network/interceptor/CloudflareInterceptor.kt:23-35 | each call forwards exactly one request, the one `Forward` builds from the current fields, returns the response to that request, and leaves the credential fields unchanged |
| `Cloudflare.FreshInterceptorPassesThrough` | app/src/main/java/com/x8bit/bitwarden/data/platform/datasource/network/interceptor/CloudflareInterceptor.kt:12-35 | a freshly constructed interceptor forwards exactly the incoming request, once, and returns the response to it |
| `Cloudflare.ConfiguredInterceptorAttaches` | app/src/main/java/com/x8bit/bitwarden/data/platform/datasource/network/interceptor/CloudflareInterceptor.kt:12-31 | after the setters store an ID and a non-empty secret, in either order, the forwarded request carries both, trimmed, as the only values of the two headers, every other header is kept, and the response is the one to that request |
| `Cloudflare.SecretWithoutIdAttaches` | app/src/main/java/com/x8bit/bitwarden/data/platform/datasource/network/interceptor/CloudflareInterceptor.kt:12-31 | with only the secret set, the forwarded request still gains an ID header with value `""` next to the trimmed secret header |
| `Cloudflare.IdWithoutSecretPassesThrough` | app/src/main/java/com/x8bit/bitwarden/data/platform/datasource/network/interceptor/CloudflareInterceptor.kt:12-33 | with only the client ID set, the forwarded request equals the incoming one |
| `Generator.FakeGeneratorRepository.constructor` | app/src/test/java/com/x8bit/bitwarden/data/tools/generator/repository/util/FakeGeneratorRepository.kt:13-16 | a new fake holds the result `Success("updatedText")` and no options |
| `Generator.FakeGeneratorRepository.GeneratePassword` | app/src/test/java/com/x8bit/bitwarden/data/tools/generator/repository/util/FakeGeneratorRepository.kt:18-22 | returns the configured result whatever the request, and changes neither slot |
| `Generator.FakeGeneratorRepository.GetPasswordGenerationOptions` | app/src/test/java/com/x8bit/bitwarden/data/tools/generator/repository/util/FakeGeneratorRepository.kt:24-26 | returns the stored options, `None` when there are none, and changes neither slot |
| `Generator.FakeGeneratorRepository.SavePasswordGenerationOptions` | app/src/test/java/com/x8bit/bitwarden/data/tools/generator/repository/util/FakeGeneratorRepository.kt:28-30 | overwrites the options slot with the given options and leaves the result slot unchanged |
| `Generator.FakeGeneratorRepository.SetMockGeneratePasswordResult` | app/src/test/java/com/x8bit/bitwarden/data/tools/generator/repository/util/FakeGeneratorRepository.kt:35-37 | overwrites the result slot and leaves the options slot unchanged |
| `Generator.FakeGeneratorRepository.SetMockGeneratePasswordGenerationOptions` | app/src/test/java/com/x8bit/bitwarden/data/tools/generator/repository/util/FakeGeneratorRepository.kt:42-44 | overwrites the options slot with the given optional value, absent included, and leaves the result slot unchanged |
| `Generator.FreshRepository` | app/src/test/java/com/x8bit/bitwarden/data/tools/generator/repository/util/FakeGeneratorRepository.kt:13-26 | before any configuration, getting the options returns `None` and every request generates `Success("updatedText")` |
| `Generator.SaveThenGet` | app/src/test/java/com/x8bit/bitwarden/data/tools/generator/repository/util/FakeGeneratorRepository.kt:18-30 | saved options are read back, the last save wins, and saving does not change the generated result |
| `Generator.MockResultPersists` | app/src/test/java/com/x8bit/bitwarden/data/tools/generator/repository/util/FakeGeneratorRepository.kt:18-44 | in one sequence of calls (configure the result, generate, set the options to `None`, save options, generate, configure again, generate), each generation returns the result configured last, whatever the request, and the options read back as saved; the general fact follows from the setters' frame clauses and from `GeneratePassword` changing nothing |
| `Generator.ClearOptions` | app/src/test/java/com/x8bit/bitwarden/data/tools/generator/repository/util/FakeGeneratorRepository.kt:24-44 | setting the mock options to `None` after a save makes a later get return `None` |
| `Generator.SaveMatchesSetMock` | app/src/test/java/com/x8bit/bitwarden/data/tools/generator/repository/util/FakeGeneratorRepository.kt:28-44 | `savePasswordGenerationOptions(o)` and `setMockGeneratePasswordGenerationOptions(o)` leave both slots in the same state |

## Left out

- The `println` calls in the two credential setters (CloudflareInterceptor.kt lines 15 and 19) are console output. The setters are modelled as plain assignments.
- The values of `CF_ACCESS_CLIENT_ID` and `CF_ACCESS_CLIENT_SECRET` are defined in `network/util`, and that file is not part of this model. The constants hold assumed header names. The proofs rely only on the two names being different.
- OkHttp compares header names without regard to ASCII case. The model compares them exactly.
- Cloudflare.CloudflareInterceptor.Intercept: reads both credential fields once, as one atomic snapshot, and promises `unchanged(this)`. In the source the fields are plain non-volatile `var`s, and `intercept` reads the secret up to three times and the ID once (lines 24, 28 and 29). A setter running on another thread between those reads is not modelled, and neither is when its write becomes visible to the thread running `intercept`. Such an interleaving could, for example, send a secret header whose value is `""`.
- OkHttp's `header(name, value)` throws when a name or value holds a character that is illegal in an HTTP header, such as a control character in the secret. The model does not have that error path. `Http.Trim` drops only spaces and tabs. For a value holding other whitespace it differs from Kotlin's `trim()`, but OkHttp rejects such a value before trimming it.
- Parts of a request other than its headers are reduced to URL, method and body, which are copied unchanged. Tags, cache control and the real `Response` are not modelled. The response is an opaque type parameter, computed by a function of the forwarded request.
- The network send inside `chain.proceed` is not modelled, and neither is any other interceptor in the chain.
- `generatePassword` is a `suspend` function. Coroutine suspension and cancellation are not modelled; it is an ordinary method here.
- `PasswordGeneratorRequest`, `PasswordGenerationOptions` and the real generation engine are defined in a library that is not part of this model. The first two are type parameters. `GeneratedPasswordResult` keeps the `Success(generatedString)` case, and `Failure` stands for its other cases, which are not shown.
- The `GeneratorRepository` interface and its production implementation are not part of this model. Neither are environment URL validation, derivation, persistence or observation.
- `EnvironmentScreen.kt` is Compose UI and `LandingScreenTest.kt` is a UI test. Neither holds domain logic, so neither is modelled.

# ProxyServer model

This is a Dafny model of `ProxyServer`, the class the HTTP client uses to describe a proxy server. It covers four things:

- **Protocol enumeration.** `HTTP`, `HTTPS` and `NTLM` have the labels `"http"`, `"https"` and `"NTLM"`. The Java enum returns the label from both `getProtocol()` and `toString()`; the model has one `Protocol.Label()`. `ProtocolOf` is its inverse, and `LabelRoundTrip` proves the labels identify the protocols.
- **The proxy object** is the class `Client.ProxyServer`.
  - Protocol, host, principal and password are `const`, like the Java `final` fields.
  - `port` is a `var` because the Java field is not final, but no method changes it.
  - `encoding`, `ntlmDomain` and the ordered `nonProxyHosts` list are mutable.
  - The four constructor overloads are the unnamed constructor, `HttpWithCredentials`, `WithoutCredentials` and `HttpWithoutCredentials`.
  - Each setter has a field-level `modifies` frame (`this`encoding`, `this`ntlmDomain`, `this`nonProxyHosts`), so the verifier checks that no other field changes.
  - Each setter returns the receiver, as the fluent Java setters do.
  - `removeNonProxyHost` has the semantics of `List.remove(Object)`, modelled by `RemoveFirst`: only the first equal entry goes, and the call does nothing when there is no such entry.
- **`fromProxy`.** `ConvertProxy` is the decision tree over an abstract `java.net.Proxy`. `ProxyServer.FromProxy` builds the new object from that decision. A null result is `NullServer`, and each of the two `IllegalArgumentException`s is `Thrown(error)` with its own tag.
- **`toString`.** `Display` renders `<label>://<host>:<port>`, with the port in decimal as `%d` prints it (`Decimal.IntToDecimal`). `ParseDisplay` reads this form back, and `DisplayRoundTrip` proves that it recovers protocol, host and port. So the display form is injective even when the host contains `:`.

Null values:
- Java `null` for principal, password and NTLM domain is `None`.
- A null `java.net.Proxy` passed to `fromProxy` is `None` as well.
- The Java `int` port is the subset type `int32`.

`getNonProxyHosts()` returns a `seq`. This is a value, so a caller cannot change the object through it.

The code does not validate the host or the port, so the model accepts any string and any `int32`.

## Model

| member | source | states |
|---|---|---|
| `Client.Protocol.Label` | src/main/java/com/ning/http/client/ProxyServer.java:31-47 | every protocol label is non-empty and contains no ':' (which is what makes the display form readable back) |
| `Client.LabelRoundTrip` | src/main/java/com/ning/http/client/ProxyServer.java:32 | HTTP, HTTPS and NTLM have the labels "http", "https" and "NTLM": each label maps back to its protocol, and only these strings map to a protocol |
| `Client.LabelsAreDistinct` | src/main/java/com/ning/http/client/ProxyServer.java:32 | two protocols with the same label are the same protocol |
| `Client.ProxyServer.constructor` | src/main/java/com/ning/http/client/ProxyServer.java:50-65 | the full constructor stores protocol, host, port, principal and password exactly, and the getters return them; encoding starts as "UTF-8", the non-proxy list empty, the NTLM domain null |
| `Client.ProxyServer.HttpWithCredentials` | src/main/java/com/ning/http/client/ProxyServer.java:67-69 | without a protocol argument the protocol is HTTP; the other arguments are stored as given; optional fields at their defaults |
| `Client.ProxyServer.WithoutCredentials` | src/main/java/com/ning/http/client/ProxyServer.java:71-73 | without credentials, principal and password are null; protocol, host and port as given; optional fields at their defaults |
| `Client.ProxyServer.HttpWithoutCredentials` | src/main/java/com/ning/http/client/ProxyServer.java:75-77 | protocol HTTP, no credentials, host and port as given, optional fields at their defaults |
| `Client.ProxyServer.GetProtocol` | src/main/java/com/ning/http/client/ProxyServer.java:79-81 | returns the protocol field unchanged (the value stored by the constructor) |
| `Client.ProxyServer.GetHost` | src/main/java/com/ning/http/client/ProxyServer.java:87-89 | returns the host field unchanged |
| `Client.ProxyServer.GetPort` | src/main/java/com/ning/http/client/ProxyServer.java:91-93 | returns the port field unchanged |
| `Client.ProxyServer.GetPrincipal` | src/main/java/com/ning/http/client/ProxyServer.java:95-97 | returns the principal field unchanged, null included |
| `Client.ProxyServer.GetPassword` | src/main/java/com/ning/http/client/ProxyServer.java:99-101 | returns the password field unchanged, null included |
| `Client.ProxyServer.GetEncoding` | src/main/java/com/ning/http/client/ProxyServer.java:138-140 | returns the current encoding field |
| `Client.ProxyServer.GetNtlmDomain` | src/main/java/com/ning/http/client/ProxyServer.java:161-163 | returns the current NTLM domain field, null included |
| `Client.ProxyServer.GetNonProxyHosts` | src/main/java/com/ning/http/client/ProxyServer.java:152-154 | returns a sequence equal to the internal non-proxy host list; as a function it changes no state, and the value it returns cannot alias the object's list |
| `Client.ProxyServer.GetProtocolAsString` | src/main/java/com/ning/http/client/ProxyServer.java:83-85 | the string form is the label of the object's own protocol, from which that protocol is recovered |
| `Client.ConvertProxy` | src/main/java/com/ning/http/client/ProxyServer.java:109-131 | null or DIRECT gives no proxy; exactly the SOCKS type is an unsupported-proxy-type error; exactly an HTTP proxy with a non-Internet address is an unsupported-address error; exactly an HTTP proxy with an Internet address gives a proxy at that address's port, whose host is the host name when the address is unresolved and the resolved IP text otherwise (each case an if-and-only-if) |
| `Client.ProxyServer.FromProxy` | src/main/java/com/ning/http/client/ProxyServer.java:109-131 | returns null or throws the error as the decision says; otherwise returns a new object with protocol HTTP, no credentials, the chosen host and port, and default optional fields |
| `Client.ProxyServer.SetEncoding` | src/main/java/com/ning/http/client/ProxyServer.java:133-140 | overwrites the encoding with any value, changes no other field, returns the same object |
| `Client.ProxyServer.SetNtlmDomain` | src/main/java/com/ning/http/client/ProxyServer.java:156-163 | overwrites the NTLM domain with any value including null, changes no other field, returns the same object |
| `Client.ProxyServer.AddNonProxyHost` | src/main/java/com/ning/http/client/ProxyServer.java:142-145 | the list becomes the old list plus the new entry at the end (no dedup, no validation); no other field changes; returns the same object |
| `Client.ProxyServer.RemoveNonProxyHost` | src/main/java/com/ning/http/client/ProxyServer.java:147-154 | the list loses exactly its first entry equal to the argument, the rest keeping their order; an absent argument leaves it unchanged without error; no other field changes; returns the same object |
| `Client.RemoveFirst` | src/main/java/com/ning/http/client/ProxyServer.java:148 | `List.remove(Object)` on the non-proxy host list: removes the first entry equal to the argument if any; at most one entry goes |
| `Client.RemoveFirstCutsFirstOccurrence` | src/main/java/com/ning/http/client/ProxyServer.java:147-150 | `List.remove(Object)` equals the list with the element at the first matching index cut out, or the list itself when nothing matches |
| `Client.RemoveFirstLength` | src/main/java/com/ning/http/client/ProxyServer.java:147-150 | removing an absent entry is a no-op; removing a present one shortens the list by exactly one |
| `Client.RemoveFirstMultiset` | src/main/java/com/ning/http/client/ProxyServer.java:147-150 | removal takes away one occurrence of the entry and nothing else (as multisets) |
| `Client.AddThenRemove` | src/main/java/com/ning/http/client/ProxyServer.java:142-150 | adding then removing a host restores the list when the host was absent; when it was present the earlier copy is the one removed and the new copy stays last |
| `Client.Display` | src/main/java/com/ning/http/client/ProxyServer.java:166-168 | the display text `<label>://<host>:<port>` can be parsed back to exactly the protocol, host and port it was made from |
| `Client.DisplayRoundTrip` | src/main/java/com/ning/http/client/ProxyServer.java:167 | parsing `label + "://" + host + ":" + decimal(port)` gives back protocol, host and port, even when the host contains ':' |
| `Client.HostPortRoundTrip` | src/main/java/com/ning/http/client/ProxyServer.java:167 | the `<host>:<port>` tail is read back as host and port by splitting at its last ':' |
| `Client.DisplayInjective` | src/main/java/com/ning/http/client/ProxyServer.java:166-168 | two proxies with the same display text have the same protocol, host and port |
| `Client.ProxyServer.ToString` | src/main/java/com/ning/http/client/ProxyServer.java:166-168 | the object's display text reads back as its own protocol, host and port |
| `Decimal.NatToDecimal` | src/main/java/com/ning/http/client/ProxyServer.java:167 | the `%d` digits of a magnitude are a non-empty string of decimal digits with a leading zero only for 0 |
| `Decimal.ParseNatRoundTrip` | src/main/java/com/ning/http/client/ProxyServer.java:167 | reading the digits back gives the number they were made from |
| `Decimal.IntToDecimal` | src/main/java/com/ning/http/client/ProxyServer.java:167 | the `%d` text of any int (a minus sign for negatives, then the digits) reads back as that int and contains no ':' |

`NonProxyHostsExample` is a client of the class. It checks several behaviours: fluent chaining; `["a.com", "a.com"]` becoming `["a.com"]` after one removal; removing a missing entry doing nothing; and a setter leaving protocol, port and list untouched. The helpers in module `Seqs` (`IndexOf`, `LastIndexOf` and two lemmas about them) are the search operations the proofs above use.

## Left out

- `java.net.Proxy` and `java.net.InetSocketAddress` are reduced to the data that `fromProxy` reads: the proxy type, whether the address is an `InetSocketAddress`, its host name, its resolved IP text (absent exactly when `isUnresolved()`), and its port. DNS resolution and the 0..65535 port check of `InetSocketAddress` are library behaviour and are not modelled.
- The unmodifiable live view that `getNonProxyHosts()` returns (`Collections.unmodifiableList`) is a library object. The model returns the current list as an immutable value. It therefore does not show later mutations the way a live view would, and it cannot be used to change the object.
- Null is not modelled for the host, the encoding, non-proxy host entries or the protocol. In Java each of these may be null: `toString` prints "null" for a null host and throws for a null protocol. The model types them as non-null.
- The two `IllegalArgumentException`s are result tags (`UnsupportedProxyType`, `UnsupportedAddressType`), not exceptions. Their message texts are not modelled.
- Locale-dependent digits of `String.format("%d")` are not modelled. The model always uses ASCII decimal digits.
- The unsynchronised setters and list are not modelled under concurrent use. The model is single-threaded.

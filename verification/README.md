# NAPALM ACL (`netacl`) — a Dafny model

This project models the logic of Salt's `netacl` execution module, `salt/modules/napalm_acl.py`.
The module generates firewall configuration with the Capirca policy compiler and loads it on a
network device through NAPALM. Its own logic has two parts:

- **The Capirca platform resolver** (`_get_capirca_platform`). It reads the device grains
  `vendor`, `os` and `model` and lowercases them. It then tries an ordered rule list, where
  the first match wins: `junipersrx`, `cisco`, `ciscoxr`, `ciscoasa`, `iptables` or `paloaltofw`.
  When no rule matches, it falls back to the lowercased vendor.
- **Three entry points**: `load_term_config`, `load_filter_config` and `load_policy_config`.
  Each one replaces an omitted or empty list argument with `[]` and resolves the platform.
  It then calls the Capirca compiler (`capirca.get_*_config`) and passes the generated text,
  with the `test`, `commit` and `debug` flags, to `net.load_config`. The result of that call
  is returned unchanged.

Modules:

- `Wrappers` (`wrappers.dfy`): `Option` and `Result`.
- `Ascii` (`ascii.dfy`): ASCII lowercasing, and the substring test behind Python's `in` on strings.
- `Platform` (`platform.dfy`): the grain lookup and the resolver.
  - It has one lemma per rule and an if-and-only-if characterisation of each fixed platform name.
  - It states case-insensitivity.
  - It defines an independent reference: the rule table written as data (`RuleTable`), evaluated by a
    generic first-match function. A lemma proves that the if/elif chain and the table agree.
- `NetAcl` (`netacl.dfy`): the three entry points.
  - The compiler and the device call are function-valued parameters (`compile`, `apply`).
    Each is a fixed function of its request: the pillar contents, the clock behind
    `revision_date` and the target device are held fixed.
  - Each entry point returns an `Outcome`. It records what the compiler was asked, what the device
    call was asked, and what that call returned. It can also record a missing grain, or a compiler
    error that stopped the call before the device was contacted.

Facts about the code that the model makes explicit:

- os `linux` gives `iptables` except for a Juniper SRX. The earlier rule at napalm_acl.py:100
  claims that device as `junipersrx` (`Platform.LinuxRule`).
- `filter_options`, `terms` and `filters` default to `None`, and `if not x` replaces any falsy
  value by `[]` (napalm_acl.py:436, 649, 651, 843). `NetAcl.OrEmpty` models this replacement.
  The `…Normalises…` lemmas show that passing a list already normalised changes no load.
- The resolver's vendor fallback can itself spell a fixed platform name. For example, vendor `ciscoxr` with
  a non-linux os gives `ciscoxr`. The `ResolvesTo…Iff` lemmas state this second way to reach each
  name.

## Model

| member | source | states |
|---|---|---|
| `Ascii.Lower` | salt/modules/napalm_acl.py:97-99 | lowercasing keeps the length, folds each ASCII capital to its small letter, leaves every other character alone, and yields a string with no capitals |
| `Ascii.LowerEqualIff` | salt/modules/napalm_acl.py:97-99 | two strings lowercase to the same string exactly when they differ only in letter case |
| `Ascii.LowerIdempotent` | salt/modules/napalm_acl.py:97-99 | lowercasing twice equals lowercasing once; a string is its own lowercase exactly when it has no capitals |
| `Ascii.LowerOfUpper` | salt/modules/napalm_acl.py:97-99 | an uppercased string lowercases to the same string as the original |
| `Ascii.Contains` | salt/modules/napalm_acl.py:100 | `needle in haystack` is true exactly when some position of the haystack starts a contiguous copy of the needle |
| `Platform.ReadFacts` | salt/modules/napalm_acl.py:97-99 | the lookup succeeds exactly when `vendor`, `os` and `model` are all present and then returns their values; otherwise it fails with the first missing key in the order vendor, os, model |
| `Platform.LowerFacts` | salt/modules/napalm_acl.py:97-99 | the compared grains contain no capitals and each is equal, up to case, to the grain read |
| `Platform.Resolve` | salt/modules/napalm_acl.py:87-115 | the resolver always returns a value: one of the six fixed platform names or the lowercased vendor, so it is always lowercase |
| `Platform.CapircaPlatform` | salt/modules/napalm_acl.py:97-115 | resolution from the grains dictionary fails exactly when a grain is missing, with that key; otherwise its value is `Resolve` of the grains read, a lowercase name that is fixed or the lowercased vendor |
| `Platform.JuniperSrxRule` | salt/modules/napalm_acl.py:100-101 | lowercased vendor `juniper` with `srx` anywhere in the lowercased model gives `junipersrx`, whatever the os |
| `Platform.JuniperNonSrx` | salt/modules/napalm_acl.py:100-115 | a Juniper device without `srx` in its model gives `iptables` on linux and `juniper` otherwise |
| `Platform.CiscoRules` | salt/modules/napalm_acl.py:102-115 | for vendor `cisco`: os `ios`, `iosxr` and `asa` give `cisco`, `ciscoxr` and `ciscoasa`; `linux` gives `iptables`; any other os falls back to `cisco` |
| `Platform.LinuxRule` | salt/modules/napalm_acl.py:100-109 | os `linux` gives `iptables` for every device except a Juniper SRX, which the earlier rule claims as `junipersrx` |
| `Platform.PaloAltoRule` | salt/modules/napalm_acl.py:108-111 | vendor `palo alto networks` gives `paloaltofw` unless the os is `linux`, where the earlier linux rule gives `iptables` |
| `Platform.VendorFallback` | salt/modules/napalm_acl.py:112-115 | when no rule applies the result is the lowercased vendor |
| `Platform.ResolvesToJuniperSrxIff` | salt/modules/napalm_acl.py:100-115 | the result is `junipersrx` exactly for a Juniper SRX, or for vendor `junipersrx` off linux |
| `Platform.ResolvesToCiscoIff` | salt/modules/napalm_acl.py:100-115 | the result is `cisco` exactly for vendor `cisco` with an os other than `iosxr`, `asa` and `linux` |
| `Platform.ResolvesToCiscoXrIff` | salt/modules/napalm_acl.py:100-115 | the result is `ciscoxr` exactly for Cisco on `iosxr`, or vendor `ciscoxr` off linux |
| `Platform.ResolvesToCiscoAsaIff` | salt/modules/napalm_acl.py:100-115 | the result is `ciscoasa` exactly for Cisco on `asa`, or vendor `ciscoasa` off linux |
| `Platform.ResolvesToIptablesIff` | salt/modules/napalm_acl.py:100-115 | the result is `iptables` exactly for a linux device that is not a Juniper SRX, or vendor `iptables` off linux |
| `Platform.ResolvesToPaloAltoFwIff` | salt/modules/napalm_acl.py:100-115 | the result is `paloaltofw` exactly for vendor `palo alto networks` or `paloaltofw` off linux |
| `Platform.CaseInsensitive` | salt/modules/napalm_acl.py:97-99 | grains that differ only in letter case resolve to the same platform |
| `Platform.LowerAndUpperFactsResolveAlike` | salt/modules/napalm_acl.py:97-99 | resolving lowercased or fully uppercased grains gives the same platform as the original grains |
| `Platform.FirstMatchIsEarliest` | salt/modules/napalm_acl.py:100-115 | first-match evaluation of a rule list returns the platform of the earliest matching rule, and nothing exactly when no rule matches |
| `Platform.ResolveAgreesWithTable` | salt/modules/napalm_acl.py:100-115 | the if/elif chain equals the table of six rules evaluated first-match-first, with the lowercased vendor as default |
| `Platform.ResolveIsEarliestRule` | salt/modules/napalm_acl.py:100-115 | the resolver returns the platform of the earliest rule of the six-rule table that matches the lowercased grains, or the lowercased vendor when no rule matches |
| `NetAcl.OrEmpty` | salt/modules/napalm_acl.py:436-437 | an omitted list argument becomes `[]`; a given list is passed on as is |
| `NetAcl.OrEmptyAbsentIsEmpty` | salt/modules/napalm_acl.py:649-652 | the normalised list is empty exactly when the argument was omitted or empty, and normalising twice changes nothing |
| `NetAcl.Dispatch` | salt/modules/napalm_acl.py:438-458 | a grain failure stops the call before the compiler; a compiler error stops it before the device; otherwise the device call receives the compiled text with the caller's flags, and its result is returned |
| `NetAcl.LoadTermConfig` | salt/modules/napalm_acl.py:436-458 | the compiler gets the resolved platform, the normalised `filter_options` and every other argument unchanged, including `source_service`/`destination_service` whether absent, one name or a list of names (lines 328-329, 451-452); the device call gets the compiled text and `test`/`commit`/`debug` unchanged; its result is returned unmodified; errors stop the pipeline where they occur |
| `NetAcl.LoadFilterConfig` | salt/modules/napalm_acl.py:649-672 | as for terms, with both `filter_options` and `terms` normalised and `prepend`/`only_lower_merge` forwarded |
| `NetAcl.LoadPolicyConfig` | salt/modules/napalm_acl.py:843-862 | as for terms, with `filters` normalised and `prepend`/`only_lower_merge` forwarded |
| `NetAcl.TermLoadDependsOnlyOnPlatform` | salt/modules/napalm_acl.py:438-458 | the grains affect a term load only through the resolved platform: devices that resolve alike get the same compiler request and the same device request, and their loads end the same way; the device results may differ |
| `NetAcl.TermLoadIgnoresGrainCase` | salt/modules/napalm_acl.py:438-458 | devices whose grains differ only in case get the same term-load compiler and device requests, and their loads end the same way |
| `NetAcl.FilterLoadDependsOnlyOnPlatform` | salt/modules/napalm_acl.py:653-672 | the grains affect a filter load only through the resolved platform: devices that resolve alike get the same compiler request and the same device request, and their loads end the same way |
| `NetAcl.FilterLoadIgnoresGrainCase` | salt/modules/napalm_acl.py:653-672 | devices whose grains differ only in case get the same filter-load compiler and device requests, and their loads end the same way |
| `NetAcl.PolicyLoadDependsOnlyOnPlatform` | salt/modules/napalm_acl.py:845-862 | the grains affect a policy load only through the resolved platform: devices that resolve alike get the same compiler request and the same device request, and their loads end the same way |
| `NetAcl.PolicyLoadIgnoresGrainCase` | salt/modules/napalm_acl.py:845-862 | devices whose grains differ only in case get the same policy-load compiler and device requests, and their loads end the same way |
| `NetAcl.TermLoadNormalisesOptions` | salt/modules/napalm_acl.py:436-437 | for any `filter_options`, passing its normalised form instead gives the same term load |
| `NetAcl.FilterLoadNormalisesLists` | salt/modules/napalm_acl.py:649-652 | for any `terms` and `filter_options`, passing their normalised forms instead gives the same filter load, and the ignored `**kwargs` change nothing |
| `NetAcl.PolicyLoadNormalisesFilters` | salt/modules/napalm_acl.py:843-844 | for any `filters`, passing its normalised form instead gives the same policy load, and the ignored `**kwargs` change nothing |
| `NetAcl.PolicyLoadDefaults` | salt/modules/napalm_acl.py:676-689 | with every argument at its default, the compiler gets `[]` filters, `prepend` set, pillar key `acl` with merging on, `only_lower_merge` off and a dated revision; the device call commits, with `test` and `debug` clear |

## Left out

- The Capirca compiler (`capirca.get_term_config`, `get_filter_config`, `get_policy_config`) is a foreign library. It appears only as the `compile` parameter. Pillar merging, `prepend` ordering, revision comments and the `/etc/services` lookup for `source_service`/`destination_service` all happen inside it.
- `net.load_config` is device I/O. It appears only as the `apply` parameter, and its result type is left abstract. An exception it raises is part of that abstract result.
- The implicit `napalm_device` handle injected by the `proxy_napalm_wrap` decorator is not modelled. It is only passed through to the device call.
- The compiler and the device call are each modelled as one fixed function of their request. The pillar contents the compiler reads, the date it stamps when `revision_date` is set, and the device that `napalm_device` names are not inputs of the model. So the lemmas that compare two devices' loads speak only of the requests sent and of how each call ends, never of the device results.
- `get_filter_pillar` and `get_term_pillar` are one-line delegations to the pillar store with no logic of their own.
- `__virtual__` and the `HAS_CAPIRCA`/`HAS_NAPALM` import flags are load-time environment checks.
- Ascii.Lower: folds ASCII letters only. Python's `str.lower()` also folds non-ASCII letters, and can change a string's length.
- NetAcl.OrEmpty: list arguments are typed as lists. Python's `if not x` would also replace other falsy values, such as `""` or `0`, by `[]`.
- Platform.ReadFacts: grain values are modelled as strings. A non-string grain makes `.lower()` raise in Python, and that case is not modelled.

# pyda-japc type dispatch and listener shaping, in Dafny

This project models the self-contained logic of the pyda-japc provider. That
provider connects the PyDA client API to the JAPC Java middleware. The logic
modelled here is:

- the accessor-name table of the local data model: a (`BasicType`, array rank)
  pair gives the `get_…` / `set_…` method name, and bad ranks and unknown
  types are rejected;
- the partial map from JAPC's `ValueType` enumeration onto `BasicType`;
- the choice of Python scalar type for a boxed Java scalar;
- the provider's selector decision and data-filter construction;
- the two listener callbacks. Each turns a foreign event into one
  `PropertyRetrievalResponse`, or into no response when the converter it calls
  raises.

Modules, one per source file plus two shared ones:

| module | file | models |
|---|---|---|
| `Results` | results.dfy | `Option`, the raised errors (`ValueError`, `TypeError`, any other class), `Result` |
| `DsModel` | ds_model.dfy | the 12-member `BasicType` and what each member stores (`Kind`) |
| `DmHelpers` | dm_helpers.dfy | `pyda_japc/_dm_helpers.py` |
| `Transformations` | transformations.dfy | `pyda_japc/_transformations.py` (the `ValueType` table) |
| `JpypeTools` | jpype_tools.dfy | `pyda_japc/_jpype_tools.py` (the scalar dtype table) |
| `Provider` | provider.dfy | `pyda_japc/_provider.py` (selector, data filter, listener) |

The tables are proved against independent partner definitions:

- An accessor suffix is parsed back into its (type, rank) by `ParseSuffix`.
  This gives injectivity.
- The `ValueType` map is inverted by `ForeignElement`. This gives injectivity
  and "never unsigned".
- Both scalar tables are classified by `Kind` (text, logical, signed, unsigned
  or floating, with a width in bits). This shows that their widths agree.

Python truthiness is modelled explicitly. A selector that is `None` or `""` is
absent. Data filters that are `None` or an empty mapping are absent. A query
with data filters but a `None` selector therefore gets a filtered selector whose
text is `str(None)`, which is `"None"` (`Provider.FiltersWithoutSelector`).

## Model

| member | source | states |
|---|---|---|
| DmHelpers.MethodSuffix | pyda_japc/_dm_helpers.py:25-38 | A rank outside {0,1,2} raises ValueError, and this is checked before the type. At a good rank, a hashable non-BasicType argument raises TypeError "Unhandled type …". An unhashable argument raises TypeError "unhashable type: '…'" from the membership test itself. Otherwise the suffix succeeds and parses back to exactly that type and rank. It is the type name followed by "", "_array" or "_array_2D" for ranks 0, 1 and 2. |
| DmHelpers.SuffixRoundTrip | pyda_japc/_dm_helpers.py:6-38 | The type name followed by the rank suffix ("", "_array", "_array_2D") reads back to the same (type, rank). |
| DmHelpers.TypeNameRoundTrip | pyda_japc/_dm_helpers.py:6-22 | No name in the 12-entry table contains an underscore, and each name identifies its type. |
| DmHelpers.MethodSuffixInjective | pyda_japc/_dm_helpers.py:6-38 | Two successful suffixes are equal only for the same type and rank. |
| DmHelpers.AllTypesHaveSuffixes | pyda_japc/_dm_helpers.py:6-22 | All 12 basic types, UINT8–UINT64 included, are accepted at ranks 0, 1 and 2. |
| DmHelpers.GetterName | pyda_japc/_dm_helpers.py:41-44 | The getter name is "get_" followed by a suffix that parses back to the requested (type, rank). It fails exactly when the suffix fails, with the same error. |
| DmHelpers.SetterName | pyda_japc/_dm_helpers.py:47-50 | The setter name is "set_" followed by a suffix that parses back to the requested (type, rank). It fails exactly when the suffix fails, with the same error. |
| DmHelpers.AccessorNamesDistinct | pyda_japc/_dm_helpers.py:41-50 | No getter name equals a setter name. |
| Transformations.ValueTypeToBasicType | pyda_japc/_transformations.py:12-41 | The lookup succeeds exactly on the 8 scalar kinds. Any other ValueType member, and None, raises TypeError "Unknown type <input>". The reverse table leads back to the input, so the map is injective. A result is never unsigned. |
| Transformations.EightMappings | pyda_japc/tests/test_transformations.py:18-35 | BOOLEAN→BOOL, BYTE→INT8, SHORT→INT16, INT→INT32, LONG→INT64, FLOAT→FLOAT, DOUBLE→DOUBLE, STRING→STRING. |
| Transformations.ArrayKindsRejected | pyda_japc/_transformations.py:33-40 | Rank-carrying kinds such as BYTE_ARRAY and BYTE_ARRAY_2D are rejected with "Unknown type BYTE_ARRAY" (and so on). |
| Transformations.NoneIsUnknown | pyda_japc/tests/test_transformations.py:38-40 | None is rejected with TypeError "Unknown type None". |
| Transformations.ValueTypeToBasicTypeInjective | pyda_japc/_transformations.py:16-27 | Distinct foreign kinds never give the same BasicType. |
| Transformations.ValueTypeToBasicTypeImage | pyda_japc/_transformations.py:16-27 | A BasicType is reached from some foreign kind if and only if it is not unsigned. |
| Transformations.MappedTypesHaveAccessors | pyda_japc/_transformations.py:31-41 | Every successful result has a method suffix, a getter and a setter at each of the ranks 0, 1 and 2. |
| JpypeTools.ScalarDtype | pyda_japc/_jpype_tools.py:8-29 | The lookup is on the exact class. The eight boxed classes are accepted and every other class raises TypeError "Cannot convert Java scalar type … to a Python scalar". The chosen type keeps the Java class's signedness and width (Byte→int8, …, Float→float32, Double→float64, Boolean→bool, String→str). |
| JpypeTools.ScalarDtypeInjective | pyda_japc/_jpype_tools.py:11-20 | Distinct boxed classes get distinct Python scalar types. |
| JpypeTools.ScalarTablesAgree | pyda_japc/_jpype_tools.py:11-20 | For every foreign scalar kind, the Python type chosen for its boxed class stores the same kind and width as the BasicType the kind maps to. For example, BYTE and Byte are both signed 8-bit. |
| Provider.DataFilter | pyda_japc/_provider.py:119-126 | The filter holds exactly the mapping's keys, and every entry it holds is one of the mapping's items. |
| Provider.DataFilterEntries | pyda_japc/_provider.py:119-126 | For a mapping with distinct keys, each key maps to its own value, so the filter contains exactly the input entries. |
| Provider.CreateSelector | pyda_japc/_provider.py:75-82 | It yields NO_SELECTOR if and only if there is neither a selector nor data filters. It yields a filtered selector if and only if data filters are present, whether or not a selector is. Any built selector has text str(query.selector), and a filtered one has the mapping's keys. |
| Provider.CreateSelectorKeepsQuery | pyda_japc/_provider.py:75-82 | A given selector string passes through unchanged, and every data-filter entry reaches the built selector's filter. |
| Provider.FiltersWithoutSelector | pyda_japc/_provider.py:79-81 | With data filters and no selector, the selector text is "None" for a None selector and "" for an empty one. |
| Provider.OnException | pyda_japc/_provider.py:88-99 | The header is converted first. If that raises, the error escapes the callback and no response is made. Otherwise the response has no value, its error message equals the foreign message, the error's cause is the foreign exception, and its notification type is the one read from the exception's header. |
| Provider.OnValueReceived | pyda_japc/_provider.py:101-108 | If converting the acquired value raises, the error escapes and no response is made. Otherwise the response carries the converted value and its notification type, with no exception. |
| Provider.Listen | pyda_japc/_provider.py:85-116 | An event gives a response if and only if the converter it needs returns normally. A response carries either a value or an error but not both. It is an error if and only if the event is an exception, and then the error's cause is that exception. |
| Provider.ResponsesFor | pyda_japc/_provider.py:85-116 | A sequence of events gives no more responses than events. When every conversion returns normally, there is exactly one response per event, at that event's position. |
| Provider.ResponsesInOrder | pyda_japc/_provider.py:85-116 | Whatever other events do, each response is the response of one event. The events' positions strictly increase along the responses, so nothing is duplicated or reordered, and every event whose conversion returns normally has its response among them. |
| Provider.ResponsesComeFromEvents | pyda_japc/_provider.py:85-116 | Every response is the listener's response to one of the events, so no response is invented. |
| Provider.UnconvertibleEventIsLost | pyda_japc/_provider.py:89-108 | An event whose conversion raises gives no response, so fewer responses than events arrive. |
| Provider.UnconvertibleEventGivesNoResponse | pyda_japc/_provider.py:89-108 | A single event whose conversion raises hands nothing to the callback, so a get's result is never set. |
| Provider.ResponsesFollowEvents | pyda_japc/_provider.py:85-116 | When every conversion returns normally, the i-th response is an error if and only if the i-th event is an exception, and it carries that event's exception as its cause. |

## Left out

- JVM bootstrap (`cern_pkg`), the `lru_cache` memoisation of the tables and `param_factory`: these are process start-up and caching. The tables here are plain functions.
- `create_param` and the parameter-name formatting: these build a foreign parameter handle.
- `JapcPropertyStream`, `JapcProvider._get_property` and the `jp.JProxy` wiring: they depend on the Java subscription handle, a `concurrent.futures.Future` and a PyDA base class that is not part of this model. The callback's delivery of responses in order is modelled by `Provider.ResponsesFor` and `Provider.ResponsesInOrder`.
- The converters `ValueHeader_to_ctx_notif_pair` and `AcquiredParameterValue_to_AcquiredPropertyData_notif_pair` are not part of this model. They are function parameters (`Provider.Converters`) that either return a result or raise. Only the notification half of the header pair is used.
- `getattr(data, name)` in `getter_for_type` / `setter_for_type` looks the method up on a data-model object that is not part of this model. The model returns the accessor name only.
- `dtype(scalar_value)`: the numeric cast itself, float32 rounding included, is done by numpy. Only the choice of type is modelled.
- The value put into the data filter is passed through unchanged. Any conversion of it to a Java type happens in the foreign map-value and is not modelled.
- Transformations.ValueTypeToBasicType: the foreign `ValueType` enumeration is modelled as the 8 element types at ranks 0, 1 and 2 plus ENUM, ENUM_SET, DISCRETE_FUNCTION and DISCRETE_FUNCTION_LIST. The real enumeration has further members, and the model treats all of them alike as outside the table.
- JpypeTools.ScalarDtype: the text of a Java class in the error message is modelled as `<java class 'NAME'>`. The exact formatting of the Python bridge is not part of this model.
- DmHelpers.MethodSuffix: the message for an unknown type uses the argument's text as given (`NotBasic(repr)`). Python's formatting of arbitrary objects is not modelled. Python's `True`/`False`, which equal 1 and 0 in the rank check, are not modelled either.
- Transformations.ValueTypeToBasicType: the input is a ValueType member or None. Other Python values, including unhashable ones whose lookup raises "unhashable type", are not modelled.

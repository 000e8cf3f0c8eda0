# Ka-Commons core, modelled in Dafny

This project models the core of Ka-Commons, a Java utility library, and proves properties of the model. The core has three parts.

- **Reflection filters and their builders.** Leaf filters test a class, method, field or constructor: a modifier bitmask, a parameter count, an exact signature, or index-wise and array-wise assignability. They combine as AND lists, a binary OR and NOT. The fluent builders collect filters in a list and keep one pending operator.
- **Hierarchy lookups.** `ClassMap` walks key, then direct interfaces, then superclass. `PackageMap` cuts a name at its last dot until a key matches. `ClassIntrospector` unions the declared matches up the superclass chain.
- **JMX support.** `DynamicMBeanImpl` routes attribute and operation calls by name. `AnnotationDynamicMBeanFactory` derives getters, setters, operations and parameter infos from annotations. `AnnotatedStandardMBean` overrides descriptions, parameter names and impacts from annotations. `MethodUtils` checks signatures, and `AnnotationScanner` builds the include pattern of a scan.

Reflective metadata is plain data (`Reflect`). A type has a name, modifier bits, kind flags, an optional superclass, direct interfaces and annotations. The members each class declares are a table beside the types. `isAssignableFrom` and `String.matches` are given functions (`Reflect.Jvm`). Reflective invocation is a given partial function (`DynamicMBeans.Invoker`). Choosing a class by name (`ClassUtils.getPrimitiveClass`, then `Class.forName`) is a given function too (`StandardMBeans.Implementation.classFor`). Java `null` is `None`, and thrown exceptions are `Throws` values.

The filter and builder code is shared. One generic `Filter<L>` serves all four member kinds. One `FilterBuilder<L>` class stands for the four builder classes, whose `add`, `not`, `or` and `build` are identical. Objects whose fields change are classes: `FilterBuilder`, `ClassMap`, `PackageMap`, `ClassIntrospector` and `DynamicMBeanImpl`. Their loops are methods proved against specification functions.

## Model

Source paths are relative to the repository root.

| member | source | states |
|---|---|---|
| Modifiers.ToInt | src/main/java/org/kasource/commons/reflection/filter/methods/ModifierMethodFilter.java:22 | A 32-bit pattern read as a Java `int`: in range, negative exactly from 0x8000_0000 up (where bit 31 is set), zero exactly for the zero pattern. |
| Modifiers.HasAnyIff | src/main/java/org/kasource/commons/reflection/filter/methods/ModifierMethodFilter.java:22 | `(modifiers & mask) > 0` holds exactly when some bit is shared and bit 31 is not among the shared bits. |
| Modifiers.ZeroMaskNeverPasses | src/main/java/org/kasource/commons/reflection/filter/constructors/ModifierConstructorFilter.java:23 | Mask 0 never passes. |
| Modifiers.NoSharedBitFails | src/main/java/org/kasource/commons/reflection/filter/fields/ModifierFieldFilter.java:22 | A member lacking every bit of the mask fails. |
| Modifiers.SharedBitPasses | src/main/java/org/kasource/commons/reflection/filter/classes/ModifierClassFilter.java:20 | With bit 31 outside the mask, any non-empty set of bits held by both the member and the mask (one bit, say) is enough, whatever other mask bits the member lacks. |
| Modifiers.DefaultAccessMaskIsZero | src/main/java/org/kasource/commons/reflection/ConstructorFilterBuilder.java:130-133 | `PUBLIC & PROTECTED & PRIVATE` is 0. |
| Java.Decimal | src/main/java/org/kasource/commons/jmx/dynamic/AnnotationDynamicMBeanFactory.java:186 | The decimal form of an index is non-empty and made of digits. |
| Java.DecimalInjective | src/main/java/org/kasource/commons/jmx/dynamic/AnnotationDynamicMBeanFactory.java:186 | Two indices with the same decimal form are equal. |
| Reflect.ImpactCode | src/main/java/org/kasource/commons/jmx/OperationImpact.java:5-19 | Each impact maps to its MBeanOperationInfo constant in 0..3, and only UNKNOWN maps to UNKNOWN. |
| Reflect.Superclasses | src/main/java/org/kasource/commons/reflection/ClassIntrospector.java:125-132 | The class, then each superclass in turn, ending at the class without a superclass. |
| Reflect.PairwiseIff | src/main/java/org/kasource/commons/reflection/filter/constructors/AssignableFromConstructorFilter.java:29-37 | The array-mode loop accepts exactly when the lengths agree and every position is related. |
| Filters.ListPassesIffAll | src/main/java/org/kasource/commons/reflection/filter/constructors/ConstructorFilterList.java:16-23 | A filter list passes exactly when each filter passes; the empty list passes everything. |
| Filters.StopsAtFirstFailure | src/main/java/org/kasource/commons/reflection/filter/methods/MethodFilterList.java:23-30 | A failing filter decides the list: no filter after it can change the verdict. |
| Filters.OrVerdicts | src/main/java/org/kasource/commons/reflection/filter/constructors/OrConstructorFilter.java:24-26 | OR: a passing left side decides alone; a failing left side gives the right side's verdict; two failures fail. |
| Filters.NegationVerdicts | src/main/java/org/kasource/commons/reflection/filter/constructors/NegationConstructorFilter.java:22-24 | NOT inverts the verdict, and negating twice agrees with the inner filter. |
| Classes.ListIsConjunction | src/main/java/org/kasource/commons/reflection/filter/classes/ClassFilterList.java:22-29 | ClassFilterList passes a class exactly when every filter in it does. |
| Classes.ModifierVerdict | src/main/java/org/kasource/commons/reflection/filter/classes/ModifierClassFilter.java:19-21 | ModifierClassFilter passes exactly on a shared bit when the mask leaves out bit 31; mask 0 fails. |
| Classes.DefaultFilterPassesEveryClass | src/main/java/org/kasource/commons/reflection/ClassFilterBuilder.java:284-287 | The filter `isDefault()` adds, as written, passes every class. |
| Classes.PublicClassPassesDefault | src/main/java/org/kasource/commons/reflection/ClassFilterBuilder.java:284-287 | A public class, which is not package-private, still passes the as-written `isDefault()` filter. |
| Classes.PackagePrivateFilterIff | src/main/java/org/kasource/commons/reflection/ClassFilterBuilder.java:284-287 | The corrected filter passes a class exactly when it has none of the three access bits. |
| Classes.IsDefault | src/main/java/org/kasource/commons/reflection/ClassFilterBuilder.java:284-287 | `isDefault()` as written adds NOT(mask `PUBLIC & PROTECTED & PRIVATE`) through `add`: the new builder state is `Add` of the old one with that filter, which passes every class, and a throwing `add` leaves the state alone. |
| Classes.IsDefaultIntended | src/main/java/org/kasource/commons/reflection/ClassFilterBuilder.java:284-287 | The corrected `isDefault()`: the same `add`, of the filter that passes exactly the package-private classes. |
| Constructors.AssignableFromAtVerdict | src/main/java/org/kasource/commons/reflection/filter/constructors/AssignableFromConstructorFilter.java:23-28 | Index mode: too few parameters fail; otherwise it passes exactly when the given type is assignable from that parameter. |
| Constructors.AssignableFromAllVerdict | src/main/java/org/kasource/commons/reflection/filter/constructors/AssignableFromConstructorFilter.java:29-37 | Array mode: it passes exactly when the lengths agree and each given type is assignable from the parameter at its position. |
| Constructors.AssignableToAtVerdict | src/main/java/org/kasource/commons/reflection/filter/constructors/AssignableToConstructorFilter.java:29-34 | Index mode, reverse direction: too few parameters fail; otherwise the parameter must be assignable from the given type. |
| Constructors.AssignableToAllVerdict | src/main/java/org/kasource/commons/reflection/filter/constructors/AssignableToConstructorFilter.java:35-43 | Array mode, reverse direction: equal lengths, and each parameter is assignable from the given type at its position. |
| Constructors.AssignableFromModesAgree | src/main/java/org/kasource/commons/reflection/filter/constructors/AssignableFromConstructorFilter.java:23-38 | At equal lengths, array mode passes exactly when index mode passes at every position. |
| Constructors.ParameterClassAtVerdict | src/main/java/org/kasource/commons/reflection/filter/constructors/ParameterClassFilterConstructorFilter.java:32-37 | Index mode: too few parameters fail; otherwise the class filter's verdict on that parameter decides. |
| Constructors.ParameterClassesVerdict | src/main/java/org/kasource/commons/reflection/filter/constructors/ParameterClassFilterConstructorFilter.java:38-49 | List mode: it passes exactly when the filter count equals the parameter count and each filter passes its parameter; no filters pass a no-argument constructor. |
| Constructors.SignatureVerdict | src/main/java/org/kasource/commons/reflection/filter/constructors/SignatureConstructorFilter.java:23-25 | It passes exactly on an equal type sequence; fewer, more or one differing type fail; a pass implies a matching count. |
| Constructors.CountOnlyMatters | src/main/java/org/kasource/commons/reflection/filter/constructors/NumberOfParametersConstructorFilter.java:22-24 | It passes exactly when the count equals n; two constructors with the same count get the same verdict. |
| Constructors.ModifierVerdict | src/main/java/org/kasource/commons/reflection/filter/constructors/ModifierConstructorFilter.java:22-24 | It passes on a shared bit below bit 31; a public constructor passes PUBLIC, a private one fails it; mask 0 fails. |
| Constructors.ListIsConjunction | src/main/java/org/kasource/commons/reflection/filter/constructors/ConstructorFilterList.java:16-23 | ConstructorFilterList is the conjunction of its filters. |
| Constructors.ListStopsAtFirstFailure | src/main/java/org/kasource/commons/reflection/filter/constructors/ConstructorFilterList.java:17-20 | A first failure returns false, whatever follows it. |
| Constructors.DefaultFilterPassesEveryConstructor | src/main/java/org/kasource/commons/reflection/ConstructorFilterBuilder.java:130-133 | The as-written `isDefault()` filter passes every constructor. |
| Constructors.PublicConstructorPassesDefault | src/main/java/org/kasource/commons/reflection/ConstructorFilterBuilder.java:130-133 | A public constructor passes the as-written `isDefault()` filter. |
| Constructors.PackagePrivateFilterIff | src/main/java/org/kasource/commons/reflection/ConstructorFilterBuilder.java:130-133 | The corrected filter passes exactly the constructors with no access bit. |
| Constructors.IsDefault | src/main/java/org/kasource/commons/reflection/ConstructorFilterBuilder.java:130-133 | `isDefault()` as written adds NOT(mask 0) through `add`; the new builder state is `Add` of the old one with that filter, which passes every constructor. |
| Constructors.IsDefaultIntended | src/main/java/org/kasource/commons/reflection/ConstructorFilterBuilder.java:130-133 | The corrected `isDefault()`: the same `add`, of the filter that passes exactly the package-private constructors. |
| Constructors.BuilderShapes | src/main/java/org/kasource/commons/reflection/ConstructorFilterBuilder.java:52-67 | `not().isPublic()` gives one Negation; `isPublic().or().isPrivate().or().isProtected()` gives one left-folded Or; two plain filters build to an AND list. |
| Methods.AssignableFromAtVerdict | src/main/java/org/kasource/commons/reflection/filter/methods/AssignableFromMethodFilter.java:28-33 | Index mode: too few parameters fail; otherwise the given type must be assignable from the parameter. |
| Methods.AssignableFromAllVerdict | src/main/java/org/kasource/commons/reflection/filter/methods/AssignableFromMethodFilter.java:34-42 | Array mode: equal lengths and assignable-from at each position. |
| Methods.AssignableToAtVerdict | src/main/java/org/kasource/commons/reflection/filter/methods/AssignableToMethodFilter.java:28-33 | Index mode, reverse direction: too few parameters fail; otherwise the parameter must be assignable from the given type. |
| Methods.AssignableToAllVerdict | src/main/java/org/kasource/commons/reflection/filter/methods/AssignableToMethodFilter.java:34-42 | Array mode, reverse direction: equal lengths and assignable-to at each position. |
| Methods.SignatureVerdict | src/main/java/org/kasource/commons/reflection/filter/methods/SignatureMethodFilter.java:22-24 | It passes exactly on an equal type sequence; shorter, longer or a wrong type fail. |
| Methods.CountVerdict | src/main/java/org/kasource/commons/reflection/filter/methods/NumberOfParametersMethodFilter.java:20-22 | It passes exactly when the count is n; n+1 and n-1 fail; only the count matters. |
| Methods.ModifierVerdict | src/main/java/org/kasource/commons/reflection/filter/methods/ModifierMethodFilter.java:21-24 | It passes on a shared bit below bit 31; mask 0 fails. |
| Methods.ListIsConjunction | src/main/java/org/kasource/commons/reflection/filter/methods/MethodFilterList.java:23-30 | MethodFilterList is the conjunction of its filters. |
| Methods.ListStopsAtFirstFailure | src/main/java/org/kasource/commons/reflection/filter/methods/MethodFilterList.java:24-27 | A first failure returns false, whatever follows it. |
| Fields.ModifierVerdict | src/main/java/org/kasource/commons/reflection/filter/fields/ModifierFieldFilter.java:21-23 | It passes on a shared bit below bit 31; mask 0 fails. |
| Fields.ListIsConjunction | src/main/java/org/kasource/commons/reflection/filter/fields/FieldFilterList.java:24-31 | FieldFilterList is the conjunction of its filters. |
| Fields.ListStopsAtFirstFailure | src/main/java/org/kasource/commons/reflection/filter/fields/FieldFilterList.java:25-28 | A first failure returns false, whatever follows it. |
| Fields.DefaultFilterPassesEveryField | src/main/java/org/kasource/commons/reflection/filter/FieldFilterBuilder.java:249-252 | The as-written `isDefault()` filter passes every field. |
| Fields.PublicFieldPassesDefault | src/main/java/org/kasource/commons/reflection/FieldFilterBuilder.java:164-167 | A public field passes the as-written `isDefault()` filter. |
| Fields.PackagePrivateFilterIff | src/main/java/org/kasource/commons/reflection/filter/FieldFilterBuilder.java:249-252 | The corrected filter passes exactly the fields with no access bit. |
| Fields.IsDefault | src/main/java/org/kasource/commons/reflection/FieldFilterBuilder.java:164-167 | `isDefault()` as written, in both field builders (the other copy is filter/FieldFilterBuilder.java:249-252), adds NOT(mask 0) through `add`; the new builder state is `Add` of the old one with that filter, which passes every field. |
| Fields.IsDefaultIntended | src/main/java/org/kasource/commons/reflection/FieldFilterBuilder.java:164-167 | The corrected `isDefault()`: the same `add`, of the filter that passes exactly the package-private fields. |
| FilterBuilders.AddShape | src/main/java/org/kasource/commons/reflection/ClassFilterBuilder.java:54-69 | A successful `add` leaves no operator pending; OR keeps the length, NOT and NONE add one entry; the entries before the last are kept; `add` throws only with OR pending on an empty list. |
| FilterBuilders.PlainAddsKeepOrder | src/main/java/org/kasource/commons/reflection/ClassFilterBuilder.java:65-67 | With no operator pending, a run of adds appends the filters in insertion order. |
| FilterBuilders.NotWrapsOnlyNext | src/main/java/org/kasource/commons/reflection/ConstructorFilterBuilder.java:54-57 | `not()` negates the next added filter only; the one after it is added plainly. |
| FilterBuilders.OrFoldsLeft | src/main/java/org/kasource/commons/reflection/ConstructorFilterBuilder.java:58-62 | Chained ORs fold to the left into one entry. |
| FilterBuilders.LatestOperatorWins | src/main/java/org/kasource/commons/reflection/ConstructorFilterBuilder.java:75-90 | The later of `not()` and `or()` decides what the next add does. |
| FilterBuilders.OrFirstFails | src/main/java/org/kasource/commons/reflection/ConstructorFilterBuilder.java:59-60 | `or()` before any filter makes the next add throw IndexOutOfBoundsException. |
| FilterBuilders.BuildMeansConjunction | src/main/java/org/kasource/commons/reflection/ConstructorFilterBuilder.java:304-314 | `build()` fails exactly on an empty builder, returns a single filter as it is, and otherwise a list passing exactly what every collected filter passes. |
| FilterBuilders.FilterBuilder.constructor | src/main/java/org/kasource/commons/reflection/ClassFilterBuilder.java:54-69 | A new builder has no filters and no pending operator. |
| FilterBuilders.FilterBuilder.AddFilter | src/main/java/org/kasource/commons/reflection/filter/FieldFilterBuilder.java:48-63 | The new fields are `Add` of the old ones; a throw leaves them unchanged; NOT appends the negation, NONE appends the filter. |
| FilterBuilders.FilterBuilder.Not | src/main/java/org/kasource/commons/reflection/FieldFilterBuilder.java:70-73 | The operator becomes NOT; the filters are unchanged. |
| FilterBuilders.FilterBuilder.Or | src/main/java/org/kasource/commons/reflection/FieldFilterBuilder.java:80-83 | The operator becomes OR; the filters are unchanged. |
| FilterBuilders.FilterBuilder.BuildFilter | src/main/java/org/kasource/commons/reflection/ClassFilterBuilder.java:336-346 | The result is `Build` of the fields, and it throws exactly when there are no filters. |
| ClassMaps.FirstKeyed | src/main/java/org/kasource/commons/collection/ClassMap.java:69-79 | The result is null exactly when no listed interface is a key. |
| ClassMaps.FirstKeyedIsFirst | src/main/java/org/kasource/commons/collection/ClassMap.java:72-77 | The value of the first listed interface that is a key is the one returned. |
| ClassMaps.ResolveIsFirstLevel | src/main/java/org/kasource/commons/collection/ClassMap.java:46-53 | The lookup is the first class of the superclass chain that contributes a value. |
| ClassMaps.EmptyFindsNothing | src/main/java/org/kasource/commons/collection/ClassMap.java:38-40 | An unset or empty map gives null for every class. |
| ClassMaps.DirectHitWins | src/main/java/org/kasource/commons/collection/ClassMap.java:41-42 | A direct key is returned before any interface or superclass is consulted. |
| ClassMaps.InterfacesBeforeSuperclass | src/main/java/org/kasource/commons/collection/ClassMap.java:43-45 | Unless interfaces are excluded, the class's first keyed direct interface is returned before its superclass is looked at. |
| ClassMaps.NearestLevelWins | src/main/java/org/kasource/commons/collection/ClassMap.java:46-52 | The nearest contributing class of the chain decides, whatever farther classes map to. |
| ClassMaps.NoLevelNoValue | src/main/java/org/kasource/commons/collection/ClassMap.java:46-53 | When no class of the chain contributes, the lookup gives null. |
| ClassMaps.ExcludedFindsOnlyChainKeys | src/main/java/org/kasource/commons/collection/ClassMap.java:43-49 | With interfaces excluded, a found value is the value of a class of the superclass chain. |
| ClassMaps.ClassMap.constructor | src/main/java/org/kasource/commons/collection/ClassMap.java:19-21 | No map set, interfaces included. |
| ClassMaps.ClassMap.WithMap | src/main/java/org/kasource/commons/collection/ClassMap.java:22-24 | The given map is set, interfaces included. |
| ClassMaps.ClassMap.SetMap | src/main/java/org/kasource/commons/collection/ClassMap.java:84-86 | Only the map is replaced. |
| ClassMaps.ClassMap.IsExcludeInterfaces | src/main/java/org/kasource/commons/collection/ClassMap.java:91-93 | Returns the flag. |
| ClassMaps.ClassMap.SetExcludeInterfaces | src/main/java/org/kasource/commons/collection/ClassMap.java:98-100 | Only the flag is replaced. |
| ClassMaps.ClassMap.GetByInterfaces | src/main/java/org/kasource/commons/collection/ClassMap.java:69-79 | With a map, the first keyed interface's value; without one, NullPointerException exactly when there are interfaces to look up. |
| ClassMaps.ClassMap.Get | src/main/java/org/kasource/commons/collection/ClassMap.java:37-54 | The while loop up the superclass chain returns the specified lookup and changes nothing. |
| PackageMaps.LastIndexOf | src/main/java/org/kasource/commons/collection/PackageMap.java:31 | The last position of the character, or -1 exactly when it does not occur. |
| PackageMaps.LongestCandidateWins | src/main/java/org/kasource/commons/collection/PackageMap.java:32-39 | The lookup gives the value of the longest registered candidate prefix (the whole name, or a part before a dot past position 0), and null exactly when none is registered. |
| PackageMaps.NoDotExactKeyOnly | src/main/java/org/kasource/commons/collection/PackageMap.java:31-35 | A name without a dot past position 0 is looked up only as an exact key. |
| PackageMaps.EmptyFindsNothing | src/main/java/org/kasource/commons/collection/PackageMap.java:28-30 | An unset or empty map gives null for every name. |
| PackageMaps.PackageMap.constructor | src/main/java/org/kasource/commons/collection/PackageMap.java:16 | No map set. |
| PackageMaps.PackageMap.WithMap | src/main/java/org/kasource/commons/collection/PackageMap.java:18-20 | The given map is set. |
| PackageMaps.PackageMap.Get | src/main/java/org/kasource/commons/collection/PackageMap.java:27-42 | The truncation loop returns the specified lookup and changes nothing. |
| PackageMaps.PackageMap.GetForClass | src/main/java/org/kasource/commons/collection/PackageMap.java:23-25 | `get(Class)` is the lookup of the class's qualified name. |
| Selection.CollectPassing | src/main/java/org/kasource/commons/reflection/ClassIntrospector.java:102-111 | The for loop collects exactly the elements that pass. |
| Selection.InheritedIff | src/main/java/org/kasource/commons/reflection/ClassIntrospector.java:125-132 | An element of the union up the chain is exactly an element of some class's part; the target's own part is included. |
| Introspection.MethodsOverChain | src/main/java/org/kasource/commons/reflection/ClassIntrospector.java:125-132 | A method is found exactly when some class of the chain declares it and it passes; the declared matches are among them. |
| Introspection.InterfacesOverChain | src/main/java/org/kasource/commons/reflection/ClassIntrospector.java:144-153 | An interface is found exactly when it is a passing direct interface of some class of the chain. |
| Introspection.FieldsOverChain | src/main/java/org/kasource/commons/reflection/ClassIntrospector.java:228-235 | A field is found exactly when some class of the chain declares it and it passes. |
| Introspection.ClassIntrospector.constructor | src/main/java/org/kasource/commons/reflection/ClassIntrospector.java:47-49 | Keeps the target class. |
| Introspection.ClassIntrospector.GetDeclaredMethod | src/main/java/org/kasource/commons/reflection/ClassIntrospector.java:66-72 | A declared method with that name and parameter list, else IllegalArgumentException exactly when there is none. |
| Introspection.ClassIntrospector.GetDeclaredMethods | src/main/java/org/kasource/commons/reflection/ClassIntrospector.java:86-88 | Exactly the target's declared methods that pass. |
| Introspection.ClassIntrospector.GetMethods | src/main/java/org/kasource/commons/reflection/ClassIntrospector.java:125-132 | The union of the declared matches of the target and each superclass. |
| Introspection.ClassIntrospector.GetDeclaredInterfaces | src/main/java/org/kasource/commons/reflection/ClassIntrospector.java:163-165 | Only the target's direct interfaces that pass. |
| Introspection.ClassIntrospector.GetInterfaces | src/main/java/org/kasource/commons/reflection/ClassIntrospector.java:144-153 | The passing direct interfaces of the target and each superclass. |
| Introspection.ClassIntrospector.GetDeclaredFields | src/main/java/org/kasource/commons/reflection/ClassIntrospector.java:196-198 | Exactly the target's declared fields that pass. |
| Introspection.ClassIntrospector.GetFields | src/main/java/org/kasource/commons/reflection/ClassIntrospector.java:228-235 | The union of the declared field matches up the chain. |
| Introspection.ClassIntrospector.GetConstructors | src/main/java/org/kasource/commons/reflection/ClassIntrospector.java:245-254 | Exactly the public constructors that pass. |
| Introspection.ClassIntrospector.GetConstructor | src/main/java/org/kasource/commons/reflection/ClassIntrospector.java:264-270 | IllegalArgumentException exactly when `getConstructors` is empty, else one of its members. |
| ConstructorUtils.GetConstructors | src/main/java/org/kasource/commons/util/reflection/ConstructorUtils.java:71-80 | Exactly the public constructors that pass. |
| ConstructorUtils.GetConstructor | src/main/java/org/kasource/commons/util/reflection/ConstructorUtils.java:90-96 | IllegalArgumentException exactly when no constructor passes, else a member of `getConstructors`. |
| ConstructorUtils.RejectingFilterGivesEmpty | src/main/java/org/kasource/commons/util/reflection/ConstructorUtils.java:72-79 | A filter rejecting everything gives the empty set, not an error. |
| MethodUtils.HasMethodNoReturnType | src/main/java/org/kasource/commons/util/reflection/MethodUtils.java:24-26 | True exactly when the return type is void. |
| MethodUtils.NoReturnTypeIsVoidFilter | src/main/java/org/kasource/commons/util/reflection/MethodUtils.java:24-26 | A method has no return type exactly when it passes `returnType(Void.TYPE)`, so exactly when the getter filter's `not().returnType(void)` rejects it. |
| MethodUtils.VerifyMethodSignature | src/main/java/org/kasource/commons/util/reflection/MethodUtils.java:42-59 | It returns normally exactly when the method is given and its return type and parameter list equal the expected ones. |
| MethodUtils.ChecksInOrder | src/main/java/org/kasource/commons/util/reflection/MethodUtils.java:43-58 | Null first, then the return type, then the count, then the element types: the first failed check is the one reported. |
| Scanner.NormaliseScanPath | src/main/java/org/kasource/commons/util/AnnotationScanner.java:41-42 | No dot is left and every other character is kept. |
| Scanner.JoinPieces | src/main/java/org/kasource/commons/util/AnnotationScanner.java:43-44 | Splitting at a separator and joining with it gives back the string. |
| Scanner.Split | src/main/java/org/kasource/commons/util/AnnotationScanner.java:43-44 | No piece contains the separator; a string without one gives itself. |
| Scanner.SplitKeepsPrefix | src/main/java/org/kasource/commons/util/AnnotationScanner.java:43-44 | The pieces `split` keeps, joined, are the string without its trailing separators. |
| Scanner.TrimCuts | src/main/java/org/kasource/commons/util/AnnotationScanner.java:119-121 | `trim` cuts a blank prefix and a blank suffix and keeps what lies between. |
| Scanner.EscapeSlashes | src/main/java/org/kasource/commons/util/AnnotationScanner.java:120 | No slash is left; a path without one is unchanged. |
| Scanner.IncludeRegExp | src/main/java/org/kasource/commons/util/AnnotationScanner.java:117-127 | The empty string exactly for no paths. |
| Scanner.BuildIncludeRegExp | src/main/java/org/kasource/commons/util/AnnotationScanner.java:117-127 | The loop and the cut of the last `|` give the alternatives joined by `|`. |
| Scanner.OnePathNoBar | src/main/java/org/kasource/commons/util/AnnotationScanner.java:119-125 | One path gives its trimmed, escaped form followed by `.*`, with no `|`. |
| Scanner.AppendPath | src/main/java/org/kasource/commons/util/AnnotationScanner.java:119-121 | Another path appends `|` and its alternative. |
| Scanner.ScanPaths | src/main/java/org/kasource/commons/util/AnnotationScanner.java:41-44 | Dots become slashes, the path is split on commas, and the include pattern is built from the pieces. |
| DynamicMBeans.AttributeValue | src/main/java/org/kasource/commons/jmx/dynamic/DynamicMBeanImpl.java:99-109 | The getter's value exactly when a getter exists and returns; IllegalArgumentException for an unknown name, IllegalStateException for a failing getter, NullPointerException without a getter map. |
| DynamicMBeans.AttributesReadAppend | src/main/java/org/kasource/commons/jmx/dynamic/DynamicMBeanImpl.java:59-68 | Reading a list of names is reading its parts one after another, in request order. |
| DynamicMBeans.AttributesReadOne | src/main/java/org/kasource/commons/jmx/dynamic/DynamicMBeanImpl.java:61-66 | A readable name gives one attribute with its value; an unreadable one gives nothing. |
| DynamicMBeans.AttributesReadSound | src/main/java/org/kasource/commons/jmx/dynamic/DynamicMBeanImpl.java:59-68 | Every returned attribute names a requested readable name and carries its value. |
| DynamicMBeans.AttributeWrite | src/main/java/org/kasource/commons/jmx/dynamic/DynamicMBeanImpl.java:111-121 | True exactly when a setter exists and its call returns; NullPointerException without a setter map. |
| DynamicMBeans.AttributesWritten | src/main/java/org/kasource/commons/jmx/dynamic/DynamicMBeanImpl.java:71-80 | Only attributes of the request that were written successfully are returned. |
| DynamicMBeans.AttributesWrittenComplete | src/main/java/org/kasource/commons/jmx/dynamic/DynamicMBeanImpl.java:73-78 | Every attribute written successfully is returned. |
| DynamicMBeans.Invocation | src/main/java/org/kasource/commons/jmx/dynamic/DynamicMBeanImpl.java:83-92 | The operation's result when it is known and returns, else null; NullPointerException without an operation map. |
| DynamicMBeans.DynamicMBeanImpl.constructor | src/main/java/org/kasource/commons/jmx/dynamic/DynamicMBeanImpl.java:36-39 | Keeps the target; no info and no maps yet. |
| DynamicMBeans.DynamicMBeanImpl.GetAttribute | src/main/java/org/kasource/commons/jmx/dynamic/DynamicMBeanImpl.java:42-49 | The getter's value when the read succeeds, null on any failure. |
| DynamicMBeans.DynamicMBeanImpl.SetAttribute | src/main/java/org/kasource/commons/jmx/dynamic/DynamicMBeanImpl.java:52-56 | Only a missing setter map escapes, as NullPointerException. |
| DynamicMBeans.DynamicMBeanImpl.GetAttributes | src/main/java/org/kasource/commons/jmx/dynamic/DynamicMBeanImpl.java:59-68 | The loop gives one attribute per readable name, in request order. |
| DynamicMBeans.DynamicMBeanImpl.SetAttributes | src/main/java/org/kasource/commons/jmx/dynamic/DynamicMBeanImpl.java:71-80 | The loop gives the written sublist; NullPointerException exactly for a non-empty list without a setter map. |
| DynamicMBeans.DynamicMBeanImpl.Invoke | src/main/java/org/kasource/commons/jmx/dynamic/DynamicMBeanImpl.java:83-92 | The specified invocation; the signature is not consulted. |
| DynamicMBeans.DynamicMBeanImpl.GetMBeanInfo | src/main/java/org/kasource/commons/jmx/dynamic/DynamicMBeanImpl.java:95-97 | Returns the stored info. |
| DynamicMBeans.DynamicMBeanImpl.GetAttributeValue | src/main/java/org/kasource/commons/jmx/dynamic/DynamicMBeanImpl.java:99-109 | The specified read. |
| DynamicMBeans.DynamicMBeanImpl.SetAttributeValue | src/main/java/org/kasource/commons/jmx/dynamic/DynamicMBeanImpl.java:111-121 | The specified write. |
| DynamicMBeans.DynamicMBeanImpl.SetMBeanInfo | src/main/java/org/kasource/commons/jmx/dynamic/DynamicMBeanImpl.java:126-128 | Only the info is replaced. |
| DynamicMBeans.DynamicMBeanImpl.SetSetters | src/main/java/org/kasource/commons/jmx/dynamic/DynamicMBeanImpl.java:133-135 | Only the setter map is replaced. |
| DynamicMBeans.DynamicMBeanImpl.SetGetters | src/main/java/org/kasource/commons/jmx/dynamic/DynamicMBeanImpl.java:140-142 | Only the getter map is replaced. |
| DynamicMBeans.DynamicMBeanImpl.SetOperations | src/main/java/org/kasource/commons/jmx/dynamic/DynamicMBeanImpl.java:147-149 | Only the operation map is replaced. |
| MBeanFactory.AttributeName | src/main/java/org/kasource/commons/jmx/dynamic/AnnotationDynamicMBeanFactory.java:142-149 | Drops "get" when the name starts with it, else two characters; a shorter name throws IndexOutOfBoundsException. |
| MBeanFactory.AttributeNameRoundTrip | src/main/java/org/kasource/commons/jmx/dynamic/AnnotationDynamicMBeanFactory.java:142-149 | `get<a>` and `is<a>` both give back `a`. |
| MBeanFactory.BuildGetterFilter | src/main/java/org/kasource/commons/jmx/dynamic/AnnotationDynamicMBeanFactory.java:42-48 | The builder chain builds the getter filter. |
| MBeanFactory.GetterFilterIff | src/main/java/org/kasource/commons/jmx/dynamic/AnnotationDynamicMBeanFactory.java:42-48 | A getter is public, named get.* or is.*, without parameters, not void and annotated @JmxAttribute. |
| MBeanFactory.GetterNamesFit | src/main/java/org/kasource/commons/jmx/dynamic/AnnotationDynamicMBeanFactory.java:42-48 | A name passing the getter filter's name test never makes `getAttributeName` throw. |
| MBeanFactory.BuildSetterFilter | src/main/java/org/kasource/commons/jmx/dynamic/AnnotationDynamicMBeanFactory.java:253-259 | The builder chain builds the setter filter. |
| MBeanFactory.SetterFilterIff | src/main/java/org/kasource/commons/jmx/dynamic/AnnotationDynamicMBeanFactory.java:253-259 | A setter is public, its name matches `set<attribute>`, it returns void, takes exactly the getter's return type and is annotated @JmxAttribute. |
| MBeanFactory.BuildOperationFilter | src/main/java/org/kasource/commons/jmx/dynamic/AnnotationDynamicMBeanFactory.java:238-241 | The builder chain builds the operation filter. |
| MBeanFactory.OperationFilterIff | src/main/java/org/kasource/commons/jmx/dynamic/AnnotationDynamicMBeanFactory.java:238-241 | An operation is public and annotated @JmxOperation. |
| MBeanFactory.ResolveGettersAndSetters | src/main/java/org/kasource/commons/jmx/dynamic/AnnotationDynamicMBeanFactory.java:248-265 | Every getter found is stored under its attribute name, and under the same name a setter candidate when it has one; a name too short throws. |
| MBeanFactory.ResolveEach | src/main/java/org/kasource/commons/jmx/dynamic/AnnotationDynamicMBeanFactory.java:250-264 | The loop over the getters stores each one and its setter, keeping both maps consistent with the getters done. |
| MBeanFactory.GetOperationsMap | src/main/java/org/kasource/commons/jmx/dynamic/AnnotationDynamicMBeanFactory.java:236-246 | Every operation's name is a key, and each value is a found operation carrying that name. |
| MBeanFactory.JmxParameterOf | src/main/java/org/kasource/commons/jmx/dynamic/AnnotationDynamicMBeanFactory.java:200-209 | The first @JmxParameter among the annotations, or null exactly when there is none. |
| MBeanFactory.ParameterInfoFor | src/main/java/org/kasource/commons/jmx/dynamic/AnnotationDynamicMBeanFactory.java:185-198 | Named `p<i>` with an empty description without @JmxParameter; its name overrides only when non-empty, its description always. |
| MBeanFactory.DefaultNamesDistinct | src/main/java/org/kasource/commons/jmx/dynamic/AnnotationDynamicMBeanFactory.java:186-196 | Two unannotated parameters at different positions get different default names. |
| MBeanFactory.ParameterInfos | src/main/java/org/kasource/commons/jmx/dynamic/AnnotationDynamicMBeanFactory.java:177-183 | Throws exactly when there are more parameters than annotation rows; each parameter's info is at its position; surplus slots stay null. |
| MBeanFactory.GetMBeanFor | src/main/java/org/kasource/commons/jmx/dynamic/AnnotationDynamicMBeanFactory.java:60-79 | IllegalArgumentException exactly without @JmxBean; IllegalStateException exactly when, with @JmxBean, the info fails or a found getter's name does not fit; a returned MBean invokes on the object, holds the info, the getters and setters as `resolveGettersAndSetters` resolves them, and every operation keyed by its name. |
| StandardMBeans.AnnotationOf | src/main/java/org/kasource/commons/jmx/standard/AnnotatedStandardMBean.java:49 | `getAnnotation`: null exactly when absent, else the kind of an annotation of that type. |
| StandardMBeans.ResolvedTypes | src/main/java/org/kasource/commons/jmx/standard/AnnotatedStandardMBean.java:94-98 | The signature's type names resolve exactly when each one does, position by position. |
| StandardMBeans.ResolveSignature | src/main/java/org/kasource/commons/jmx/standard/AnnotatedStandardMBean.java:92-103 | The loop filling `params` gives the resolved types, or null at the first name that does not resolve. |
| StandardMBeans.DeclaredMethod | src/main/java/org/kasource/commons/jmx/standard/AnnotatedStandardMBean.java:99 | A declared method with that name and parameters, or null exactly when there is none. |
| StandardMBeans.PublicConstructor | src/main/java/org/kasource/commons/jmx/standard/AnnotatedStandardMBean.java:208 | A public constructor with those parameters, or null exactly when there is none. |
| StandardMBeans.BeanDescription | src/main/java/org/kasource/commons/jmx/standard/AnnotatedStandardMBean.java:48-58 | A non-empty @JmxBean description wins, else the info's description, or null without info. |
| StandardMBeans.AttributeDescription | src/main/java/org/kasource/commons/jmx/standard/AnnotatedStandardMBean.java:61-74 | A non-empty @JmxAttribute description on the `is`/`get` getter wins, else the default. |
| StandardMBeans.OperationDescription | src/main/java/org/kasource/commons/jmx/standard/AnnotatedStandardMBean.java:77-90 | The @JmxOperation description whenever the annotation is there, even an empty one; else the default. |
| StandardMBeans.NthJmxParameter | src/main/java/org/kasource/commons/jmx/standard/AnnotatedStandardMBean.java:143-154 | The first @JmxParameter of that parameter, or null when the member is not found; a position past its parameters throws. |
| StandardMBeans.OperationParameterName | src/main/java/org/kasource/commons/jmx/standard/AnnotatedStandardMBean.java:129-141 | Null for a null operation; the default when the method is not found; throws exactly past the method's parameters; otherwise a non-empty annotation name or the default. |
| StandardMBeans.OperationParameterDescription | src/main/java/org/kasource/commons/jmx/standard/AnnotatedStandardMBean.java:157-170 | The same rule for the parameter description. |
| StandardMBeans.ConstructorDescription | src/main/java/org/kasource/commons/jmx/standard/AnnotatedStandardMBean.java:186-199 | A non-empty @JmxConstructor description wins, else the default. |
| StandardMBeans.ConstructorParameterDescription | src/main/java/org/kasource/commons/jmx/standard/AnnotatedStandardMBean.java:214-226 | Null only for a null parameter; a missing constructor keeps the default; throws exactly past its parameters. |
| StandardMBeans.ConstructorParameterName | src/main/java/org/kasource/commons/jmx/standard/AnnotatedStandardMBean.java:228-239 | The same rule for the constructor parameter name. |
| StandardMBeans.AgreesWithDynamicFactory | src/main/java/org/kasource/commons/jmx/standard/AnnotatedStandardMBean.java:129-170 | Given the factory's defaults, the name and description overrides agree with the dynamic factory's parameter info. |
| StandardMBeans.ImpactAsWritten | src/main/java/org/kasource/commons/jmx/standard/AnnotatedStandardMBean.java:173-184 | UNKNOWN for a null operation; NullPointerException whenever the method lookup fails. |
| StandardMBeans.Impact | src/main/java/org/kasource/commons/jmx/standard/AnnotatedStandardMBean.java:173-184 | Corrected: UNKNOWN for a null operation; a failed lookup keeps the default impact. |
| StandardMBeans.ImpactRule | src/main/java/org/kasource/commons/jmx/standard/AnnotatedStandardMBean.java:177-182 | The annotation's impact wins unless it is UNKNOWN, else the default; where the written version returns, both agree. |
| StandardMBeans.ImpactOfUndeclaredOperation | src/main/java/org/kasource/commons/jmx/standard/AnnotatedStandardMBean.java:177-178 | An operation the class does not declare makes the written version throw and the corrected one keep the default. |
| StandardMBeans.FailedLookupKeepsDefaults | src/main/java/org/kasource/commons/jmx/standard/AnnotatedStandardMBean.java:92-103 | A failed member lookup is swallowed: the operation, attribute and parameter defaults are kept. |

## Left out

- Registration with an MBean server, notification listeners, ObjectName handling and `MBeanRegistratorImpl`: JMX I/O outside the modelled logic.
- Class loading and instantiation: `ClassUtils` and `ConstructorUtils.getInstance`. Choosing a class by name is a given function.
- Classpath scanning and the regex test in `AnnotationScanner.addClass`: file and jar I/O, plus java.util.regex.
- The regular-expression engine and `isAssignableFrom`: the model takes them as given functions, so Name* and Assignable* class and field filters are leaves decided by those functions.
- The remaining one-line leaf filters (Is*, Annotated*, MetaAnnotated*, ReturnType*, FieldClass): each is one reflective query, evaluated on the data model. Inherited annotations (`@Inherited`) are not modelled; annotations are those declared on the element.
- The one-line builder shortcuts (`isPublic()`, `name(...)`, `annotated(...)`, ...): each is `add` of the matching leaf, which `FilterBuilder.AddFilter` models.
- MethodFilterBuilder.java is not part of this model. The factory's getter, setter and operation filters are built with the shared builder, since their `add`, `not` and `or` have the same shape.
- Building the MBeanInfo, attribute, operation, constructor and notification info arrays (`getInfo`, `getAttributes`, `getOperations`, `getConstructors`, `getNotifications`): JMX record assembly. The factory's `GetMBeanFor` takes the info's success or failure as a parameter. The MBean registration callbacks of `DynamicMBeanImpl` (`preRegister`, `postRegister`, `preDeregister`, `postDeregister`) forward to the target when it implements `MBeanRegistration`, and `preRegister` returns the target's ObjectName; they are not modelled.
- StandardMBean's own behaviour and the constructors of `AnnotatedStandardMBean`: JMX internals. Only the overridden decision methods are modelled, as functions of the implementation class.
- Negative indices and `int` parameter numbers are `nat`, so an `ArrayIndexOutOfBoundsException` from a negative index is not modelled. Indices past the end are modelled.
- Null filters and null arguments are not modelled, and a null map value is an absent key. Collections the source may hold as null are `None`, both where it checks for null and where it does not: the getter, setter and operation maps of `DynamicMBeanImpl` and the map of `ClassMap.getByInterfaces`, whose NullPointerExceptions the model states.
- Hash-set iteration order: `getOperationsMap` stores one of several overloads with one name, chosen without saying which, as the HashSet order would.
- Bit 31 of a modifier word: the `(mods & mask) > 0` test is modelled on signed 32-bit values; reflection never sets bit 31, and the lemmas state the sign-bit case separately.
- Side effects of reflective calls on the target object: the `Invoker` is a function of the method and the arguments.
- Concurrency: none of the modelled classes synchronise, and the model is sequential.

## Findings

| source | as written | input that shows it | evidently intended | confidence | as-written member | corrected member |
|---|---|---|---|---|---|---|
| src/main/java/org/kasource/commons/reflection/ClassFilterBuilder.java:284-287 | `isDefault()` negates a modifier filter with mask `PUBLIC & PROTECTED & PRIVATE`, which is 0, so it passes every class | a public class passes `isDefault()` | the mask `PUBLIC \| PROTECTED \| PRIVATE`, passing only package-private classes | high, not executed | Classes.PublicClassPassesDefault | Classes.PackagePrivateFilterIff |
| src/main/java/org/kasource/commons/reflection/ConstructorFilterBuilder.java:130-133 | the same mask 0 in the constructor builder | a public constructor passes `isDefault()` | the union of the access bits | high, not executed | Constructors.PublicConstructorPassesDefault | Constructors.PackagePrivateFilterIff |
| src/main/java/org/kasource/commons/reflection/filter/FieldFilterBuilder.java:249-252 | the same mask 0 in both field builders (also src/main/java/org/kasource/commons/reflection/FieldFilterBuilder.java:164-167) | a public field passes `isDefault()` | the union of the access bits | high, not executed | Fields.PublicFieldPassesDefault | Fields.PackagePrivateFilterIff |
| src/main/java/org/kasource/commons/jmx/standard/AnnotatedStandardMBean.java:177-178 | `getImpact` reads the annotation of the looked-up method without the null check the other overrides make | an operation whose method the implementation class does not declare itself (or whose parameter type does not resolve) throws NullPointerException | keep the default impact when the lookup fails | medium, not executed | StandardMBeans.ImpactOfUndeclaredOperation | StandardMBeans.ImpactRule |

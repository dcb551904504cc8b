/**
 * Top-level classification of a field's Java type into one of the storage kinds
 * NORMAL, UDT, LIST, SET, MAP and ENUM, as the annotation processor does it.
 * The compiler's `TypeMirror` is reduced to the strings and counts the classifier reads.
 */
module FieldTypeParser {
  import opened Wrappers
  import opened Lang

  const JAVA_LANG_ENUM: string := "java.lang.Enum"
  const JAVA_UTIL_LIST: string := "java.util.List"
  const JAVA_UTIL_SET: string := "java.util.Set"
  const JAVA_UTIL_MAP: string := "java.util.Map"

  /** The supported implementations of each container contract (each a single name). */
  const LIST_SUPPORTED_TYPES: seq<string> := [JAVA_UTIL_LIST]
  const SET_SUPPORTED_TYPES: seq<string> := [JAVA_UTIL_SET]
  const MAP_SUPPORTED_TYPES: seq<string> := [JAVA_UTIL_MAP]

  datatype TypeDetailEnum = NORMAL | UDT | LIST | SET | MAP | ENUM

  /**
   * What the classifier learns from the compiler about a type: its erased name, the
   * `toString()` of each interface its class directly implements, the erased name of its
   * superclass, the number of its type arguments, and whether it is a declared (class or
   * interface) type at all.
   */
  datatype TypeMirror = TypeMirror(
    erasedName: string,
    interfaces: seq<string>,
    superclass: string,
    typeArgumentCount: nat,
    isDeclared: bool)

  datatype TypeDetail = TypeDetail(typeMirror: TypeMirror, typeCanonicalName: string, typeDetailEnum: TypeDetailEnum)

  /** The three container contracts, in the order the classifier tries them. */
  datatype Container = ListContainer | SetContainer | MapContainer

  function ContainerName(c: Container): string {
    match c
    case ListContainer => JAVA_UTIL_LIST
    case SetContainer => JAVA_UTIL_SET
    case MapContainer => JAVA_UTIL_MAP
  }

  function ContainerArity(c: Container): nat {
    if c == MapContainer then 2 else 1
  }

  function ContainerKind(c: Container): TypeDetailEnum {
    match c
    case ListContainer => LIST
    case SetContainer => SET
    case MapContainer => MAP
  }

  /** `String.indexOf(char)`: the first position of `c` in `s`, or -1. */
  function IndexOf(s: string, c: char): (r: int)
    ensures -1 <= r < |s|
    ensures r == -1 <==> c !in s
    ensures r >= 0 ==> s[r] == c && c !in s[..r]
  {
    if |s| == 0 then -1
    else if s[0] == c then 0
    else
      var k := IndexOf(s[1..], c);
      assert s[1..][..if k < 0 then 0 else k] == s[1..1 + if k < 0 then 0 else k];
      if k == -1 then -1 else k + 1
  }

  /** The raw name of a generic type's `toString()`: everything before the first `<`. */
  function GenericType(fieldType: string): (r: string)
    ensures '<' !in r
    ensures r <= fieldType
    ensures |r| < |fieldType| ==> fieldType[|r|] == '<'
    ensures '<' !in fieldType ==> r == fieldType
  {
    var endIdx := IndexOf(fieldType, '<');
    if endIdx > -1 then fieldType[..endIdx] else fieldType
  }

  /** A type matches a container when it is named after it or one of its interfaces is. */
  predicate IsTypeMatch(canonicalName: string, interfaces: seq<string>, typeName: string): (b: bool)
    ensures typeName == canonicalName ==> b
    ensures b && typeName != canonicalName ==>
      exists i :: 0 <= i < |interfaces| && typeName <= interfaces[i] && '<' !in typeName
    ensures |interfaces| == 0 ==> (b <==> typeName == canonicalName)
  {
    typeName == canonicalName || exists i :: 0 <= i < |interfaces| && GenericType(interfaces[i]) == typeName
  }

  /** The container check that fires first for a type, trying List, then Set, then Map. */
  function MatchedContainer(t: TypeMirror): (r: Option<Container>)
    ensures r == Some(ListContainer) <==> IsTypeMatch(t.erasedName, t.interfaces, JAVA_UTIL_LIST)
    ensures r == Some(SetContainer) <==>
      !IsTypeMatch(t.erasedName, t.interfaces, JAVA_UTIL_LIST) && IsTypeMatch(t.erasedName, t.interfaces, JAVA_UTIL_SET)
    ensures r == Some(MapContainer) <==>
      !IsTypeMatch(t.erasedName, t.interfaces, JAVA_UTIL_LIST) && !IsTypeMatch(t.erasedName, t.interfaces, JAVA_UTIL_SET)
      && IsTypeMatch(t.erasedName, t.interfaces, JAVA_UTIL_MAP)
  {
    if IsTypeMatch(t.erasedName, t.interfaces, JAVA_UTIL_LIST) then Some(ListContainer)
    else if IsTypeMatch(t.erasedName, t.interfaces, JAVA_UTIL_SET) then Some(SetContainer)
    else if IsTypeMatch(t.erasedName, t.interfaces, JAVA_UTIL_MAP) then Some(MapContainer)
    else None
  }

  /** `StringUtils.join(names, separator)`. */
  function Join(names: seq<string>, separator: string): (r: string)
    ensures |names| == 0 ==> r == ""
    ensures |names| == 1 ==> r == names[0]
    ensures |names| > 0 ==> names[0] <= r
    ensures |names| > 0 ==> |names[|names| - 1]| <= |r| && r[|r| - |names[|names| - 1]|..] == names[|names| - 1]
  {
    if |names| == 0 then ""
    else if |names| == 1 then names[0]
    else names[0] + separator + Join(names[1..], separator)
  }

  function NotSupportedMessage(canonicalName: string, supportedTypes: seq<string>): string {
    "Type '" + canonicalName + "' is not supported, try using ['" + Join(supportedTypes, ",") + "'] instead"
  }

  function ParameterCountMessage(typeCanonicalName: string, expected: nat): string {
    "type '" + typeCanonicalName + "' should have '" + NatToString(expected) + "' parameter type(s)"
  }

  /** Rejects a container implementation that is not one of the supported names. */
  function ValidateSupportedTypes(canonicalName: string, supportedTypes: seq<string>): (r: Outcome<JavaException>)
    ensures r.Pass? <==> canonicalName in supportedTypes
    ensures r.Fail? ==> r.error == CharybdisParsingException(NotSupportedMessage(canonicalName, supportedTypes))
  {
    if canonicalName !in supportedTypes then Fail(CharybdisParsingException(NotSupportedMessage(canonicalName, supportedTypes)))
    else Pass
  }

  /** Rejects a container with the wrong number of type arguments. */
  function ValidateParameterTypes(typeCanonicalName: string, parameterTypes: nat, expected: nat): (r: Outcome<JavaException>)
    ensures r.Pass? <==> parameterTypes == expected
    ensures r.Fail? ==> r.error == CharybdisParsingException(ParameterCountMessage(typeCanonicalName, expected))
  {
    if parameterTypes != expected then Fail(CharybdisParsingException(ParameterCountMessage(typeCanonicalName, expected)))
    else Pass
  }

  /** The error a matched container is rejected with, if any: the name check runs before the arity check. */
  function ContainerError(name: string, typeArgumentCount: nat, c: Container): Option<JavaException> {
    if name != ContainerName(c) then Some(CharybdisParsingException(NotSupportedMessage(name, [ContainerName(c)])))
    else if typeArgumentCount != ContainerArity(c) then Some(CharybdisParsingException(ParameterCountMessage(name, ContainerArity(c))))
    else None
  }

  /** Does the classifier look past the UDT registry at the type's interfaces and superclass? */
  predicate Inspected(t: TypeMirror, udtNames: set<string>) {
    t.erasedName !in udtNames && t.isDeclared
  }

  /**
   * `parseFieldType`: the kind starts as NORMAL and is overwritten by the first check
   * that applies; a matched container whose name or arity is wrong throws instead.
   */
  method ParseFieldType(typeMirror: TypeMirror, udtNames: set<string>) returns (r: Result<TypeDetail, JavaException>)
    ensures r.Success? ==> r.value.typeMirror == typeMirror && r.value.typeCanonicalName == typeMirror.erasedName
    // a registered UDT wins whatever its interfaces or superclass
    ensures typeMirror.erasedName in udtNames ==> r == Success(TypeDetail(typeMirror, typeMirror.erasedName, UDT))
    ensures r.Success? && r.value.typeDetailEnum == UDT <==> typeMirror.erasedName in udtNames
    // a container kind is given exactly when that container is the first to match and is accepted
    ensures forall c :: r.Success? && r.value.typeDetailEnum == ContainerKind(c) <==>
      Inspected(typeMirror, udtNames) && MatchedContainer(typeMirror) == Some(c)
      && typeMirror.erasedName == ContainerName(c) && typeMirror.typeArgumentCount == ContainerArity(c)
    // a matched container is never ENUM; otherwise ENUM exactly when the superclass is java.lang.Enum
    ensures r.Success? && r.value.typeDetailEnum == ENUM <==>
      Inspected(typeMirror, udtNames) && MatchedContainer(typeMirror) == None && typeMirror.superclass == JAVA_LANG_ENUM
    ensures r.Success? && r.value.typeDetailEnum == NORMAL <==>
      (!Inspected(typeMirror, udtNames) && typeMirror.erasedName !in udtNames)
      || (Inspected(typeMirror, udtNames) && MatchedContainer(typeMirror) == None && typeMirror.superclass != JAVA_LANG_ENUM)
    // the only failures are rejected containers, with the name error reported before the arity error
    ensures r.Failure? <==>
      Inspected(typeMirror, udtNames) && MatchedContainer(typeMirror).Some?
      && ContainerError(typeMirror.erasedName, typeMirror.typeArgumentCount, MatchedContainer(typeMirror).value).Some?
    ensures r.Failure? ==>
      r.error == ContainerError(typeMirror.erasedName, typeMirror.typeArgumentCount, MatchedContainer(typeMirror).value).value
  {
    var canonicalName := typeMirror.erasedName;
    var typeDetailEnum := NORMAL;
    if canonicalName in udtNames {
      typeDetailEnum := UDT;
    } else if typeMirror.isDeclared {
      var interfaces := typeMirror.interfaces;
      if IsTypeMatch(canonicalName, interfaces, JAVA_UTIL_LIST) {
        var supported := ValidateSupportedTypes(canonicalName, LIST_SUPPORTED_TYPES);
        if supported.Fail? { return Failure(supported.error); }
        var arity := ValidateParameterTypes(canonicalName, typeMirror.typeArgumentCount, 1);
        if arity.Fail? { return Failure(arity.error); }
        typeDetailEnum := LIST;
      } else if IsTypeMatch(canonicalName, interfaces, JAVA_UTIL_SET) {
        var supported := ValidateSupportedTypes(canonicalName, SET_SUPPORTED_TYPES);
        if supported.Fail? { return Failure(supported.error); }
        var arity := ValidateParameterTypes(canonicalName, typeMirror.typeArgumentCount, 1);
        if arity.Fail? { return Failure(arity.error); }
        typeDetailEnum := SET;
      } else if IsTypeMatch(canonicalName, interfaces, JAVA_UTIL_MAP) {
        var supported := ValidateSupportedTypes(canonicalName, MAP_SUPPORTED_TYPES);
        if supported.Fail? { return Failure(supported.error); }
        var arity := ValidateParameterTypes(canonicalName, typeMirror.typeArgumentCount, 2);
        if arity.Fail? { return Failure(arity.error); }
        typeDetailEnum := MAP;
      } else {
        var superclassDeclaredType := typeMirror.superclass;
        if JAVA_LANG_ENUM == superclassDeclaredType {
          typeDetailEnum := ENUM;
        }
      }
    }
    r := Success(TypeDetail(typeMirror, canonicalName, typeDetailEnum));
  }

  /** A container type with an unsupported name reports that, even when its arity is also wrong. */
  lemma UnsupportedNameBeforeArity(t: TypeMirror, udtNames: set<string>, c: Container)
    requires Inspected(t, udtNames) && MatchedContainer(t) == Some(c)
    requires t.erasedName != ContainerName(c) && t.typeArgumentCount != ContainerArity(c)
    ensures ContainerError(t.erasedName, t.typeArgumentCount, c)
      == Some(CharybdisParsingException("Type '" + t.erasedName + "' is not supported, try using ['" + ContainerName(c) + "'] instead"))
  {
  }

  /** The interface string of a parameterized type maps back to its raw name. */
  lemma {:induction false} GenericTypeOfParameterized(raw: string, arguments: string)
    requires '<' !in raw
    ensures GenericType(raw + "<" + arguments) == raw
  {
    IndexOfAfterPrefix(raw, "<" + arguments, '<');
    assert (raw + ("<" + arguments))[..|raw|] == raw;
    assert raw + "<" + arguments == raw + ("<" + arguments);
  }

  lemma {:induction false} IndexOfAfterPrefix(prefix: string, rest: string, c: char)
    requires c !in prefix && |rest| > 0 && rest[0] == c
    ensures IndexOf(prefix + rest, c) == |prefix|
  {
    if |prefix| > 0 {
      assert (prefix + rest)[1..] == prefix[1..] + rest;
      IndexOfAfterPrefix(prefix[1..], rest, c);
    } else {
      assert prefix + rest == rest;
    }
  }

  /** A raw `java.util.List` (no type argument) is rejected with the arity message. */
  lemma RawListRejected(t: TypeMirror)
    requires t == TypeMirror(JAVA_UTIL_LIST, ["java.util.Collection<E>"], "java.lang.Object", 0, true)
    ensures ContainerError(t.erasedName, t.typeArgumentCount, ListContainer)
      == Some(CharybdisParsingException("type '" + JAVA_UTIL_LIST + "' should have '" + "1" + "' parameter type(s)"))
  {
    assert NatToString(1) == "1";
  }

  /**
   * Any other class that directly implements `java.util.List<...>` is matched as a list and
   * then refused by name, pointing the user at `java.util.List`.
   */
  lemma ListImplementationRefused(t: TypeMirror, i: nat, arguments: string)
    requires i < |t.interfaces| && t.interfaces[i] == JAVA_UTIL_LIST + "<" + arguments
    requires t.erasedName != JAVA_UTIL_LIST
    ensures MatchedContainer(t) == Some(ListContainer)
    ensures ContainerError(t.erasedName, t.typeArgumentCount, ListContainer)
      == Some(CharybdisParsingException(NotSupportedMessage(t.erasedName, LIST_SUPPORTED_TYPES)))
  {
    GenericTypeOfParameterized(JAVA_UTIL_LIST, arguments);
    assert IsTypeMatch(t.erasedName, t.interfaces, JAVA_UTIL_LIST);
  }

  /** `java.util.ArrayList<E>` implements `java.util.List<E>`, so it is matched as a list and refused by name. */
  lemma ArrayListMatchesList(t: TypeMirror)
    requires t == TypeMirror("java.util.ArrayList", ["java.util.List<E>", "java.util.RandomAccess"], "java.util.AbstractList", 1, true)
    ensures MatchedContainer(t) == Some(ListContainer)
    ensures ContainerError(t.erasedName, t.typeArgumentCount, ListContainer).Some?
  {
    assert t.interfaces[0] == JAVA_UTIL_LIST + "<" + "E>";
    assert |t.erasedName| != |JAVA_UTIL_LIST|;
    ListImplementationRefused(t, 0, "E>");
  }
}

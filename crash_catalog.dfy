/**
 * The crash-type catalogue: the closed `CrashType` enumeration, its raw values
 * (the case names, which is how Swift derives a `String` raw value), its
 * display labels, `allCases`, `random()`, and the environment lookup that
 * selects a type.
 */
module CrashCatalog {
  import opened Optional

  datatype CrashType =
    // Swift errors
    | SwiftFatalError | SwiftAssertionFailure | ForceUnwrapNil | ArrayOutOfBounds
    // ObjC/C++
    | CppException | StackOverflow | BufferOverflow
    // Memory access
    | GarbagePointerDeref | WriteToReadOnlyPage | JumpToNonExecutablePage
    // Bad instruction
    | UndefinedInstruction | PrivilegedInstruction | BuiltinTrap
    // Stack corruption
    | SmashStackTop | SmashStackBottom | OverwriteLinkRegister
    // ObjC runtime
    | MessageFreedObject | CorruptObjCRuntime | ObjcMsgSendInvalidISA | NslogNonObject
    // C++ exception
    | CppBadAlloc | CppStringExceptionHeap | CppStringExceptionStack | CppConstCharException
    // ObjC exception
    | ObjcExceptionThrow | ObjcExceptionRaise | ObjcExceptionFromCPP
    // Heap corruption
    | CorruptMallocTracking
    // Threading
    | PthreadCrashWithLockHeld
    // Memory
    | OutOfMemory | OutOfMemory2 | OutOfMemory3
    // Hang + watchdog kill
    | MainThreadHang | MainThreadHang2 | MainThreadHang3

  /** `CrashType.allCases`, in declaration order. */
  const AllCases: seq<CrashType> := [
    SwiftFatalError, SwiftAssertionFailure, ForceUnwrapNil, ArrayOutOfBounds,
    CppException, StackOverflow, BufferOverflow,
    GarbagePointerDeref, WriteToReadOnlyPage, JumpToNonExecutablePage,
    UndefinedInstruction, PrivilegedInstruction, BuiltinTrap,
    SmashStackTop, SmashStackBottom, OverwriteLinkRegister,
    MessageFreedObject, CorruptObjCRuntime, ObjcMsgSendInvalidISA, NslogNonObject,
    CppBadAlloc, CppStringExceptionHeap, CppStringExceptionStack, CppConstCharException,
    ObjcExceptionThrow, ObjcExceptionRaise, ObjcExceptionFromCPP,
    CorruptMallocTracking,
    PthreadCrashWithLockHeld,
    OutOfMemory, OutOfMemory2, OutOfMemory3,
    MainThreadHang, MainThreadHang2, MainThreadHang3
  ]

  /** `rawValue`: the Swift case name. */
  function RawValue(t: CrashType): string {
    match t
    case SwiftFatalError => "swiftFatalError"
    case SwiftAssertionFailure => "swiftAssertionFailure"
    case ForceUnwrapNil => "forceUnwrapNil"
    case ArrayOutOfBounds => "arrayOutOfBounds"
    case CppException => "cppException"
    case StackOverflow => "stackOverflow"
    case BufferOverflow => "bufferOverflow"
    case GarbagePointerDeref => "garbagePointerDeref"
    case WriteToReadOnlyPage => "writeToReadOnlyPage"
    case JumpToNonExecutablePage => "jumpToNonExecutablePage"
    case UndefinedInstruction => "undefinedInstruction"
    case PrivilegedInstruction => "privilegedInstruction"
    case BuiltinTrap => "builtinTrap"
    case SmashStackTop => "smashStackTop"
    case SmashStackBottom => "smashStackBottom"
    case OverwriteLinkRegister => "overwriteLinkRegister"
    case MessageFreedObject => "messageFreedObject"
    case CorruptObjCRuntime => "corruptObjCRuntime"
    case ObjcMsgSendInvalidISA => "objcMsgSendInvalidISA"
    case NslogNonObject => "nslogNonObject"
    case CppBadAlloc => "cppBadAlloc"
    case CppStringExceptionHeap => "cppStringExceptionHeap"
    case CppStringExceptionStack => "cppStringExceptionStack"
    case CppConstCharException => "cppConstCharException"
    case ObjcExceptionThrow => "objcExceptionThrow"
    case ObjcExceptionRaise => "objcExceptionRaise"
    case ObjcExceptionFromCPP => "objcExceptionFromCPP"
    case CorruptMallocTracking => "corruptMallocTracking"
    case PthreadCrashWithLockHeld => "pthreadCrashWithLockHeld"
    case OutOfMemory => "outOfMemory"
    case OutOfMemory2 => "outOfMemory2"
    case OutOfMemory3 => "outOfMemory3"
    case MainThreadHang => "mainThreadHang"
    case MainThreadHang2 => "mainThreadHang2"
    case MainThreadHang3 => "mainThreadHang3"
  }

  /**
   * The first of `cases[i..]` whose raw value is `s`; `None` when none has
   * that raw value.
   */
  function FindFrom(cases: seq<CrashType>, s: string, i: nat): Option<CrashType>
    decreases |cases| - i
  {
    if i >= |cases| then None
    else if RawValue(cases[i]) == s then Some(cases[i])
    else FindFrom(cases, s, i + 1)
  }

  /** `CrashType(rawValue: s)`: the case whose raw value is `s`, or `nil`. */
  function FromRawValue(s: string): Option<CrashType> {
    FindFrom(AllCases, s, 0)
  }

  /** `displayName`: the label shown in the app. Every case has one. */
  function DisplayName(t: CrashType): string {
    match t
    case SwiftFatalError => "fatalError()"
    case SwiftAssertionFailure => "assertionFailure()"
    case ForceUnwrapNil => "Force-unwrap nil"
    case ArrayOutOfBounds => "Array out-of-bounds"
    case CppException => "C++ exception"
    case StackOverflow => "Stack overflow"
    case BufferOverflow => "Buffer overflow"
    case GarbagePointerDeref => "Garbage pointer deref"
    case WriteToReadOnlyPage => "Write to read-only page"
    case JumpToNonExecutablePage => "Jump to non-executable page"
    case UndefinedInstruction => "Undefined instruction"
    case PrivilegedInstruction => "Privileged instruction"
    case BuiltinTrap => "__builtin_trap()"
    case SmashStackTop => "Smash stack top"
    case SmashStackBottom => "Smash stack bottom"
    case OverwriteLinkRegister => "Overwrite link register"
    case MessageFreedObject => "Message freed object"
    case CorruptObjCRuntime => "Corrupt ObjC runtime"
    case ObjcMsgSendInvalidISA => "objc_msgSend invalid ISA"
    case NslogNonObject => "NSLog non-object"
    case CppBadAlloc => "C++ bad_alloc"
    case CppStringExceptionHeap => "C++ string exception (heap)"
    case CppStringExceptionStack => "C++ string exception (stack)"
    case CppConstCharException => "C++ const char* exception"
    case ObjcExceptionThrow => "ObjC exception throw"
    case ObjcExceptionRaise => "ObjC exception raise"
    case ObjcExceptionFromCPP => "ObjC exception from C++"
    case CorruptMallocTracking => "Corrupt malloc tracking"
    case PthreadCrashWithLockHeld => "pthread crash with lock held"
    case OutOfMemory | OutOfMemory2 | OutOfMemory3 => OutOfMemoryLabel
    case MainThreadHang | MainThreadHang2 | MainThreadHang3 => HangLabel
  }

  const OutOfMemoryLabel := "Out of memory (jetsam)"
  const HangLabel := "Main thread hang (SIGKILL)"

  /** The three out-of-memory cases, and only they, are labelled "Out of memory (jetsam)". */
  lemma {:induction false} OutOfMemoryLabelShared(t: CrashType)
    ensures DisplayName(t) == OutOfMemoryLabel <==> t in {OutOfMemory, OutOfMemory2, OutOfMemory3}
  {
    match t
    case SwiftFatalError =>
    case SwiftAssertionFailure =>
    case ForceUnwrapNil =>
    case ArrayOutOfBounds =>
    case CppException =>
    case StackOverflow =>
    case BufferOverflow =>
    case GarbagePointerDeref =>
    case WriteToReadOnlyPage =>
    case JumpToNonExecutablePage =>
    case UndefinedInstruction =>
    case PrivilegedInstruction =>
    case BuiltinTrap =>
    case SmashStackTop =>
    case SmashStackBottom =>
    case OverwriteLinkRegister =>
    case MessageFreedObject =>
    case CorruptObjCRuntime =>
    case ObjcMsgSendInvalidISA =>
    case NslogNonObject =>
    case CppBadAlloc =>
    case CppStringExceptionHeap =>
    case CppStringExceptionStack =>
    case CppConstCharException =>
    case ObjcExceptionThrow =>
    case ObjcExceptionRaise =>
    case ObjcExceptionFromCPP =>
    case CorruptMallocTracking =>
    case PthreadCrashWithLockHeld =>
    case OutOfMemory =>
    case OutOfMemory2 =>
    case OutOfMemory3 =>
    case MainThreadHang =>
    case MainThreadHang2 =>
    case MainThreadHang3 =>
  }

  /** The three hang cases, and only they, are labelled "Main thread hang (SIGKILL)". */
  lemma {:induction false} HangLabelShared(t: CrashType)
    ensures DisplayName(t) == HangLabel <==> t in {MainThreadHang, MainThreadHang2, MainThreadHang3}
  {
    match t
    case SwiftFatalError =>
    case SwiftAssertionFailure =>
    case ForceUnwrapNil =>
    case ArrayOutOfBounds =>
    case CppException =>
    case StackOverflow =>
    case BufferOverflow =>
    case GarbagePointerDeref =>
    case WriteToReadOnlyPage =>
    case JumpToNonExecutablePage =>
    case UndefinedInstruction =>
    case PrivilegedInstruction =>
    case BuiltinTrap =>
    case SmashStackTop =>
    case SmashStackBottom =>
    case OverwriteLinkRegister =>
    case MessageFreedObject =>
    case CorruptObjCRuntime =>
    case ObjcMsgSendInvalidISA =>
    case NslogNonObject =>
    case CppBadAlloc =>
    case CppStringExceptionHeap =>
    case CppStringExceptionStack =>
    case CppConstCharException =>
    case ObjcExceptionThrow =>
    case ObjcExceptionRaise =>
    case ObjcExceptionFromCPP =>
    case CorruptMallocTracking =>
    case PthreadCrashWithLockHeld =>
    case OutOfMemory =>
    case OutOfMemory2 =>
    case OutOfMemory3 =>
    case MainThreadHang =>
    case MainThreadHang2 =>
    case MainThreadHang3 =>
  }

  /** Where each case sits in `allCases`. */
  function CaseIndex(t: CrashType): nat {
    match t
    case SwiftFatalError => 0
    case SwiftAssertionFailure => 1
    case ForceUnwrapNil => 2
    case ArrayOutOfBounds => 3
    case CppException => 4
    case StackOverflow => 5
    case BufferOverflow => 6
    case GarbagePointerDeref => 7
    case WriteToReadOnlyPage => 8
    case JumpToNonExecutablePage => 9
    case UndefinedInstruction => 10
    case PrivilegedInstruction => 11
    case BuiltinTrap => 12
    case SmashStackTop => 13
    case SmashStackBottom => 14
    case OverwriteLinkRegister => 15
    case MessageFreedObject => 16
    case CorruptObjCRuntime => 17
    case ObjcMsgSendInvalidISA => 18
    case NslogNonObject => 19
    case CppBadAlloc => 20
    case CppStringExceptionHeap => 21
    case CppStringExceptionStack => 22
    case CppConstCharException => 23
    case ObjcExceptionThrow => 24
    case ObjcExceptionRaise => 25
    case ObjcExceptionFromCPP => 26
    case CorruptMallocTracking => 27
    case PthreadCrashWithLockHeld => 28
    case OutOfMemory => 29
    case OutOfMemory2 => 30
    case OutOfMemory3 => 31
    case MainThreadHang => 32
    case MainThreadHang2 => 33
    case MainThreadHang3 => 34
  }
  /** Every case is listed in `allCases`, at `CaseIndex`; so `allCases` is not empty. */
  lemma {:induction false} CaseIndexListsCase(t: CrashType)
    ensures CaseIndex(t) < |AllCases| && AllCases[CaseIndex(t)] == t
  {
    match t
    case SwiftFatalError | SwiftAssertionFailure | ForceUnwrapNil | ArrayOutOfBounds => CaseIndexFirstCases(t);
    case CppException | StackOverflow | BufferOverflow | GarbagePointerDeref => CaseIndexSecondCases(t);
    case WriteToReadOnlyPage | JumpToNonExecutablePage | UndefinedInstruction | PrivilegedInstruction => CaseIndexThirdCases(t);
    case BuiltinTrap | SmashStackTop | SmashStackBottom | OverwriteLinkRegister => CaseIndexFourthCases(t);
    case MessageFreedObject | CorruptObjCRuntime | ObjcMsgSendInvalidISA | NslogNonObject => CaseIndexFifthCases(t);
    case CppBadAlloc | CppStringExceptionHeap | CppStringExceptionStack | CppConstCharException => CaseIndexSixthCases(t);
    case ObjcExceptionThrow | ObjcExceptionRaise | ObjcExceptionFromCPP | CorruptMallocTracking => CaseIndexSeventhCases(t);
    case PthreadCrashWithLockHeld | OutOfMemory | OutOfMemory2 | OutOfMemory3 => CaseIndexEighthCases(t);
    case MainThreadHang | MainThreadHang2 | MainThreadHang3 => CaseIndexNinthCases(t);
  }

  // `CaseIndexListsCase`, four cases at a time. Proving all 35 cases in one
  // lemma costs the solver close to its limit; groups of four keep each proof small.

  lemma CaseIndexFirstCases(t: CrashType)
    requires t == SwiftFatalError || t == SwiftAssertionFailure || t == ForceUnwrapNil || t == ArrayOutOfBounds
    ensures CaseIndex(t) < |AllCases| && AllCases[CaseIndex(t)] == t
  {
  }

  lemma CaseIndexSecondCases(t: CrashType)
    requires t == CppException || t == StackOverflow || t == BufferOverflow || t == GarbagePointerDeref
    ensures CaseIndex(t) < |AllCases| && AllCases[CaseIndex(t)] == t
  {
  }

  lemma CaseIndexThirdCases(t: CrashType)
    requires t == WriteToReadOnlyPage || t == JumpToNonExecutablePage || t == UndefinedInstruction || t == PrivilegedInstruction
    ensures CaseIndex(t) < |AllCases| && AllCases[CaseIndex(t)] == t
  {
  }

  lemma CaseIndexFourthCases(t: CrashType)
    requires t == BuiltinTrap || t == SmashStackTop || t == SmashStackBottom || t == OverwriteLinkRegister
    ensures CaseIndex(t) < |AllCases| && AllCases[CaseIndex(t)] == t
  {
  }

  lemma CaseIndexFifthCases(t: CrashType)
    requires t == MessageFreedObject || t == CorruptObjCRuntime || t == ObjcMsgSendInvalidISA || t == NslogNonObject
    ensures CaseIndex(t) < |AllCases| && AllCases[CaseIndex(t)] == t
  {
  }

  lemma CaseIndexSixthCases(t: CrashType)
    requires t == CppBadAlloc || t == CppStringExceptionHeap || t == CppStringExceptionStack || t == CppConstCharException
    ensures CaseIndex(t) < |AllCases| && AllCases[CaseIndex(t)] == t
  {
  }

  lemma CaseIndexSeventhCases(t: CrashType)
    requires t == ObjcExceptionThrow || t == ObjcExceptionRaise || t == ObjcExceptionFromCPP || t == CorruptMallocTracking
    ensures CaseIndex(t) < |AllCases| && AllCases[CaseIndex(t)] == t
  {
  }

  lemma CaseIndexEighthCases(t: CrashType)
    requires t == PthreadCrashWithLockHeld || t == OutOfMemory || t == OutOfMemory2 || t == OutOfMemory3
    ensures CaseIndex(t) < |AllCases| && AllCases[CaseIndex(t)] == t
  {
  }

  lemma CaseIndexNinthCases(t: CrashType)
    requires t == MainThreadHang || t == MainThreadHang2 || t == MainThreadHang3
    ensures CaseIndex(t) < |AllCases| && AllCases[CaseIndex(t)] == t
  {
  }


  /**
   * `CrashType.random()`: `allCases.randomElement()!`. The random index is a
   * nondeterministic choice; `allCases` is not empty, so the unwrap cannot fail.
   */
  method RandomCrashType() returns (t: CrashType)
    ensures t in AllCases
  {
    var i :| 0 <= i < |AllCases|;
    t := AllCases[i];
  }

  /** The environment variable that names the crash type to trigger. */
  const CrashTypeVariable := "CI_AUTOMATION_CRASH_TYPE"

  /**
   * The type that the environment asks for: `CrashType(rawValue:)` applied to
   * `CI_AUTOMATION_CRASH_TYPE`, or `nil` when the variable is unset or names no case.
   */
  function RequestedCrashType(env: map<string, string>): (r: Option<CrashType>)
    ensures r.Some? <==> CrashTypeVariable in env && exists t :: RawValue(t) == env[CrashTypeVariable]
    ensures r.Some? ==> env[CrashTypeVariable] == RawValue(r.value)
    ensures forall t :: CrashTypeVariable in env && env[CrashTypeVariable] == RawValue(t) ==> r == Some(t)
  {
    if CrashTypeVariable in env then
      var r := FromRawValue(env[CrashTypeVariable]);
      FromRawValueSound(env[CrashTypeVariable]);
      assert forall t :: env[CrashTypeVariable] == RawValue(t) ==> r == Some(t) by {
        forall t | env[CrashTypeVariable] == RawValue(t) { RawValueRoundTrip(t); }
      }
      r
    else None
  }

  /**
   * A proof device: the length of a raw value and one of its characters
   * already tell the cases apart.
   */
  ghost function Identify(s: string): Option<CrashType> {
    match |s|
    case 11 => if s[0] == 'b' then Some(BuiltinTrap) else if s[0] == 'c' then Some(CppBadAlloc) else Some(OutOfMemory)
    case 12 => if s[11] == 'n' then Some(CppException) else if s[11] == '2' then Some(OutOfMemory2) else Some(OutOfMemory3)
    case 13 => if s[1] == 't' then Some(StackOverflow) else Some(SmashStackTop)
    case 14 => if s[0] == 'f' then Some(ForceUnwrapNil) else if s[0] == 'b' then Some(BufferOverflow) else if s[0] == 'n' then Some(NslogNonObject) else Some(MainThreadHang)
    case 15 => if s[14] == 'r' then Some(SwiftFatalError) else if s[14] == '2' then Some(MainThreadHang2) else Some(MainThreadHang3)
    case 16 => if s[0] == 'a' then Some(ArrayOutOfBounds) else Some(SmashStackBottom)
    case 18 => if s[13] == 'b' then Some(MessageFreedObject) else if s[13] == 'n' then Some(CorruptObjCRuntime) else if s[13] == 'T' then Some(ObjcExceptionThrow) else Some(ObjcExceptionRaise)
    case 19 => if s[0] == 'g' then Some(GarbagePointerDeref) else Some(WriteToReadOnlyPage)
    case 20 => if s[0] == 'u' then Some(UndefinedInstruction) else Some(ObjcExceptionFromCPP)
    case 21 => if s[1] == 'w' then Some(SwiftAssertionFailure) else if s[1] == 'r' then Some(PrivilegedInstruction) else if s[1] == 'v' then Some(OverwriteLinkRegister) else if s[1] == 'b' then Some(ObjcMsgSendInvalidISA) else if s[1] == 'p' then Some(CppConstCharException) else Some(CorruptMallocTracking)
    case 22 => Some(CppStringExceptionHeap)
    case 23 => if s[0] == 'j' then Some(JumpToNonExecutablePage) else Some(CppStringExceptionStack)
    case 24 => Some(PthreadCrashWithLockHeld)
    case _ => None
  }

  /** Each raw value is recognised by `Identify`. */
  lemma {:induction false} IdentifyRawValue(t: CrashType)
    ensures Identify(RawValue(t)) == Some(t)
  {
    match t
    case SwiftFatalError | SwiftAssertionFailure | ForceUnwrapNil | ArrayOutOfBounds => IdentifyFirstCases(t);
    case CppException | StackOverflow | BufferOverflow | GarbagePointerDeref => IdentifySecondCases(t);
    case WriteToReadOnlyPage | JumpToNonExecutablePage | UndefinedInstruction | PrivilegedInstruction => IdentifyThirdCases(t);
    case BuiltinTrap | SmashStackTop | SmashStackBottom | OverwriteLinkRegister => IdentifyFourthCases(t);
    case MessageFreedObject | CorruptObjCRuntime | ObjcMsgSendInvalidISA | NslogNonObject => IdentifyFifthCases(t);
    case CppBadAlloc | CppStringExceptionHeap | CppStringExceptionStack | CppConstCharException => IdentifySixthCases(t);
    case ObjcExceptionThrow | ObjcExceptionRaise | ObjcExceptionFromCPP | CorruptMallocTracking => IdentifySeventhCases(t);
    case PthreadCrashWithLockHeld | OutOfMemory | OutOfMemory2 | OutOfMemory3 => IdentifyEighthCases(t);
    case MainThreadHang | MainThreadHang2 | MainThreadHang3 => IdentifyNinthCases(t);
  }

  // `IdentifyRawValue`, four cases at a time. Comparing all 35 raw values with
  // `Identify` in one lemma exceeds the solver's limit; groups of four keep each proof small.

  lemma IdentifyFirstCases(t: CrashType)
    requires t == SwiftFatalError || t == SwiftAssertionFailure || t == ForceUnwrapNil || t == ArrayOutOfBounds
    ensures Identify(RawValue(t)) == Some(t)
  {
  }

  lemma IdentifySecondCases(t: CrashType)
    requires t == CppException || t == StackOverflow || t == BufferOverflow || t == GarbagePointerDeref
    ensures Identify(RawValue(t)) == Some(t)
  {
  }

  lemma IdentifyThirdCases(t: CrashType)
    requires t == WriteToReadOnlyPage || t == JumpToNonExecutablePage || t == UndefinedInstruction || t == PrivilegedInstruction
    ensures Identify(RawValue(t)) == Some(t)
  {
  }

  lemma IdentifyFourthCases(t: CrashType)
    requires t == BuiltinTrap || t == SmashStackTop || t == SmashStackBottom || t == OverwriteLinkRegister
    ensures Identify(RawValue(t)) == Some(t)
  {
  }

  lemma IdentifyFifthCases(t: CrashType)
    requires t == MessageFreedObject || t == CorruptObjCRuntime || t == ObjcMsgSendInvalidISA || t == NslogNonObject
    ensures Identify(RawValue(t)) == Some(t)
  {
  }

  lemma IdentifySixthCases(t: CrashType)
    requires t == CppBadAlloc || t == CppStringExceptionHeap || t == CppStringExceptionStack || t == CppConstCharException
    ensures Identify(RawValue(t)) == Some(t)
  {
  }

  lemma IdentifySeventhCases(t: CrashType)
    requires t == ObjcExceptionThrow || t == ObjcExceptionRaise || t == ObjcExceptionFromCPP || t == CorruptMallocTracking
    ensures Identify(RawValue(t)) == Some(t)
  {
  }

  lemma IdentifyEighthCases(t: CrashType)
    requires t == PthreadCrashWithLockHeld || t == OutOfMemory || t == OutOfMemory2 || t == OutOfMemory3
    ensures Identify(RawValue(t)) == Some(t)
  {
  }

  lemma IdentifyNinthCases(t: CrashType)
    requires t == MainThreadHang || t == MainThreadHang2 || t == MainThreadHang3
    ensures Identify(RawValue(t)) == Some(t)
  {
  }

  /** Distinct cases have distinct raw values. */
  lemma {:induction false} RawValueInjective(a: CrashType, b: CrashType)
    ensures RawValue(a) == RawValue(b) ==> a == b
  {
    IdentifyRawValue(a);
    IdentifyRawValue(b);
  }

  /** What the search finds has the raw value searched for. */
  lemma {:induction false} FindFromSound(cases: seq<CrashType>, s: string, i: nat)
    ensures FindFrom(cases, s, i).Some? ==> RawValue(FindFrom(cases, s, i).value) == s
    decreases |cases| - i
  {
    if i < |cases| && RawValue(cases[i]) != s {
      FindFromSound(cases, s, i + 1);
    }
  }

  /** The search finds something when a case at or after `i` has the raw value. */
  lemma {:induction false} FindFromComplete(cases: seq<CrashType>, s: string, i: nat, j: nat)
    requires i <= j < |cases| && RawValue(cases[j]) == s
    ensures FindFrom(cases, s, i).Some?
    decreases j - i
  {
    if RawValue(cases[i]) != s {
      FindFromComplete(cases, s, i + 1, j);
    }
  }

  /** Parsing a raw value gives back its case, for every case. */
  lemma {:induction false} RawValueRoundTrip(t: CrashType)
    ensures FromRawValue(RawValue(t)) == Some(t)
  {
    CaseIndexListsCase(t);
    FindFromComplete(AllCases, RawValue(t), 0, CaseIndex(t));
    FindFromSound(AllCases, RawValue(t), 0);
    RawValueInjective(FromRawValue(RawValue(t)).value, t);
  }

  /** A string parses to a case only if it is that case's raw value, and to nothing when it is no case's. */
  lemma {:induction false} FromRawValueSound(s: string)
    ensures FromRawValue(s).Some? ==> RawValue(FromRawValue(s).value) == s
    ensures FromRawValue(s).None? <==> forall t :: RawValue(t) != s
  {
    FindFromSound(AllCases, s, 0);
    forall t | RawValue(t) == s
      ensures FromRawValue(s).Some?
    {
      CaseIndexListsCase(t);
      FindFromComplete(AllCases, s, 0, CaseIndex(t));
    }
  }
}

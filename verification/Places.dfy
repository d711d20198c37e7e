/**
  The paths that completion checks look at.  The gateway compares path strings; here each
  string is recognised once, and what is proved is that following a key or an item from a
  recognised path leads to a recognised path exactly when the tree says so.  The one place
  where strings and trees part is an empty key at the root, whose path is "" again.
 */
module Places {
  import opened GoText
  import opened JsonScanner

  datatype Place =
    | Elsewhere
    | Root
    | Choices | Choice | FinishReason
    | Message | MessageContent | Refusal
    | ToolCalls | ToolCall | Function | FunctionArguments
    | Legacy | LegacyArguments
    | Output | OutputItem | OutputArguments | OutputEncrypted
    | OutputContent | OutputPart | OutputText | OutputRefusal
    | Content | Block | BlockText | BlockThinking | BlockData | BlockInput
    | Error | Status | StopReason | InputTokens

  const PLACES: seq<Place> := [
    Root, Choices, Choice, FinishReason, Message, MessageContent, Refusal, ToolCalls, ToolCall, Function,
    FunctionArguments, Legacy, LegacyArguments, Output, OutputItem, OutputArguments, OutputEncrypted, OutputContent,
    OutputPart, OutputText, OutputRefusal, Content, Block, BlockText, BlockThinking, BlockData, BlockInput, Error,
    Status, StopReason, InputTokens]

  // ---- Following the tree --------------------------------------------------------------

  /** The member of a place that is a place. */
  function Member(p: Place, key: string): Place {
    match p
    case Root =>
      if key == "choices" then Choices else if key == "output" then Output else if key == "content" then Content
      else if key == "error" then Error else if key == "status" then Status else if key == "stop_reason" then StopReason
      else if key == "input_tokens" then InputTokens else Elsewhere
    case Choice => if key == "finish_reason" then FinishReason else if key == "message" then Message else Elsewhere
    case Message =>
      if key == "content" then MessageContent else if key == "refusal" then Refusal
      else if key == "tool_calls" then ToolCalls else if key == "function_call" then Legacy else Elsewhere
    case ToolCall => if key == "function" then Function else Elsewhere
    case Function => if key == "arguments" then FunctionArguments else Elsewhere
    case Legacy => if key == "arguments" then LegacyArguments else Elsewhere
    case OutputItem =>
      if key == "arguments" then OutputArguments else if key == "encrypted_content" then OutputEncrypted
      else if key == "content" then OutputContent else Elsewhere
    case OutputPart => if key == "text" then OutputText else if key == "refusal" then OutputRefusal else Elsewhere
    case Block =>
      if key == "text" then BlockText else if key == "thinking" then BlockThinking
      else if key == "data" then BlockData else if key == "input" then BlockInput else Elsewhere
    case _ => Elsewhere
  }

  function Item(p: Place): Place {
    match p
    case Choices => Choice
    case ToolCalls => ToolCall
    case Output => OutputItem
    case OutputContent => OutputPart
    case Content => Block
    case _ => Elsewhere
  }

  /** The place a member belongs to, */
  function Owner(p: Place): Place {
    match p
    case Choices | Output | Content | Error | Status | StopReason | InputTokens => Root
    case FinishReason | Message => Choice
    case MessageContent | Refusal | ToolCalls | Legacy => Message
    case Function => ToolCall
    case FunctionArguments => Function
    case LegacyArguments => Legacy
    case OutputArguments | OutputEncrypted | OutputContent => OutputItem
    case OutputText | OutputRefusal => OutputPart
    case BlockText | BlockThinking | BlockData | BlockInput => Block
    case _ => Elsewhere
  }

  /** and its key there. */
  function Key(p: Place): string {
    match p
    case Choices => "choices"
    case Output => "output"
    case Content | MessageContent | OutputContent => "content"
    case Error => "error"
    case Status => "status"
    case StopReason => "stop_reason"
    case InputTokens => "input_tokens"
    case FinishReason => "finish_reason"
    case Message => "message"
    case Refusal | OutputRefusal => "refusal"
    case ToolCalls => "tool_calls"
    case Legacy => "function_call"
    case Function => "function"
    case FunctionArguments | LegacyArguments | OutputArguments => "arguments"
    case OutputEncrypted => "encrypted_content"
    case OutputText | BlockText => "text"
    case BlockThinking => "thinking"
    case BlockData => "data"
    case BlockInput => "input"
    case _ => ""
  }

  /** The array whose items a place stands for. */
  function ArrayOf(p: Place): Place {
    match p
    case Choice => Choices
    case ToolCall => ToolCalls
    case OutputItem => Output
    case OutputPart => OutputContent
    case Block => Content
    case _ => Elsewhere
  }

  /** How many keys and items lead to a place. */
  function Level(p: Place): nat {
    match p
    case Elsewhere | Root => 0
    case Choices | Output | Content | Error | Status | StopReason | InputTokens => 1
    case Choice | OutputItem | Block => 2
    case FinishReason | Message | OutputArguments | OutputEncrypted | OutputContent => 3
    case BlockText | BlockThinking | BlockData | BlockInput => 3
    case MessageContent | Refusal | ToolCalls | Legacy | OutputPart => 4
    case ToolCall | LegacyArguments | OutputText | OutputRefusal => 5
    case Function => 6
    case FunctionArguments => 7
  }

  /** The path of a place, spelled the way the gateway spells paths as it goes. */
  function PathOf(p: Place): string
    requires p != Elsewhere
    decreases Level(p)
  {
    if p == Root then ""
    else if Owner(p) != Elsewhere then FieldPath(PathOf(Owner(p)), Key(p))
    else ItemPath(PathOf(ArrayOf(p)))
  }

  function Find(path: string, places: seq<Place>): Place {
    if |places| == 0 then Elsewhere
    else if places[0] != Elsewhere && path == PathOf(places[0]) then places[0]
    else Find(path, places[1..])
  }

  function PlaceOf(path: string): Place {
    Find(path, PLACES)
  }

  lemma {:induction false} FindSound(path: string, places: seq<Place>)
    ensures Find(path, places) != Elsewhere ==> path == PathOf(Find(path, places))
  {
    if |places| > 0 { FindSound(path, places[1..]); }
  }

  // ---- Paths as strings ----------------------------------------------------------------

  /** Letters and underscores come after the characters that paths are put together with. */
  predicate Word(s: string) {
    forall i :: 0 <= i < |s| ==> '_' <= s[i]
  }

  predicate NoSlash(s: string) {
    forall i :: 0 <= i < |s| ==> s[i] != '/'
  }

  lemma RootMember(p: Place)
    requires Owner(p) == Root
    ensures Member(Root, Key(p)) == p && Word(Key(p)) && |Key(p)| > 0
  {
  }

  /** Keys lead where they come from, */
  lemma OwnerMember(p: Place)
    requires Owner(p) != Elsewhere
    ensures Member(Owner(p), Key(p)) == p
  {
    if Owner(p) == Root { RootMember(p); }
  }

  /** and are plain words. */
  lemma OwnerWord(p: Place)
    requires Owner(p) != Elsewhere
    ensures Word(Key(p)) && |Key(p)| > 0
  {
    if Owner(p) == Root { RootMember(p); } else if Owner(p) in {Choice, Message} { ChoiceWord(p); }
  }

  lemma ChoiceWord(p: Place)
    requires Owner(p) in {Choice, Message}
    ensures Word(Key(p)) && |Key(p)| > 0
  {
  }

  lemma NoSlashItem(path: string)
    requires NoSlash(path)
    ensures NoSlash(ItemPath(path))
  {
  }

  lemma NoSlashNothing()
    ensures NoSlash("")
  {
  }

  lemma {:induction false} PathNoSlash(p: Place)
    requires p != Elsewhere
    ensures NoSlash(PathOf(p))
    decreases Level(p)
  {
    hide NoSlash, FieldPath, ItemPath, Word, Owner, Key, ArrayOf, Level, PathOf;
    if p == Root {
      RootIsEmpty();
      NoSlashNothing();
    } else {
      Nearer(p);
      if Owner(p) != Elsewhere {
        OwnerWord(p);
        PathNoSlash(Owner(p));
        NoSlashIn(PathOf(Owner(p)), Key(p));
      } else {
        PathNoSlash(ArrayOf(p));
        NoSlashItem(PathOf(ArrayOf(p)));
      }
    }
  }

  /** A place that is not the root has its path from another, nearer the root. */
  lemma Nearer(p: Place)
    requires p != Elsewhere && p != Root
    ensures if Owner(p) != Elsewhere then Level(Owner(p)) < Level(p) && PathOf(p) == FieldPath(PathOf(Owner(p)), Key(p))
            else ArrayOf(p) != Elsewhere && Level(ArrayOf(p)) < Level(p) && PathOf(p) == ItemPath(PathOf(ArrayOf(p)))
  {
    hide FieldPath, ItemPath, Owner, Key, ArrayOf, Level;
    LevelDrops(p);
  }

  lemma LevelDrops(p: Place)
    requires p != Elsewhere && p != Root
    ensures if Owner(p) != Elsewhere then Level(Owner(p)) < Level(p) else ArrayOf(p) != Elsewhere && Level(ArrayOf(p)) < Level(p)
  {
  }

  lemma RootIsEmpty()
    ensures PathOf(Root) == ""
  {
  }

  lemma PathEmpty(p: Place)
    requires p != Elsewhere && p != Root
    ensures PathOf(p) != ""
  {
    if Owner(p) != Elsewhere { OwnerWord(p); }
  }

  /** Different places have different paths. */
  lemma {:induction false} PathsDiffer(p: Place, q: Place)
    requires p != Elsewhere && q != Elsewhere && PathOf(p) == PathOf(q)
    ensures p == q
    decreases Level(p)
  {
    hide FieldPath, ItemPath, Word, NoSlash, Owner, Key, ArrayOf, Level, PathOf, Member, Item;
    if p != Root { Nearer(p); }
    if q != Root { Nearer(q); }
    if p == Root {
      RootIsEmpty();
      if q != Root { PathEmpty(q); }
    } else if q == Root {
      RootIsEmpty();
      PathEmpty(p);
    } else if Owner(p) != Elsewhere && Owner(q) != Elsewhere {
      SameField(p, q);
      PathsDiffer(Owner(p), Owner(q));
      SameMember(p, q);
    } else if Owner(p) == Elsewhere && Owner(q) == Elsewhere {
      SameItem(PathOf(ArrayOf(p)), PathOf(ArrayOf(q)));
      PathsDiffer(ArrayOf(p), ArrayOf(q));
      SameItemOf(p, q);
    } else if Owner(p) != Elsewhere {
      OwnerWord(p);
      WordIsNoItem(PathOf(Owner(p)), Key(p), PathOf(ArrayOf(q)));
    } else {
      OwnerWord(q);
      WordIsNoItem(PathOf(Owner(q)), Key(q), PathOf(ArrayOf(p)));
    }
  }

  lemma WordIsStorable(word: string)
    requires Word(word)
    ensures Storable(word)
  {
  }

  lemma SameField(p: Place, q: Place)
    requires p != Elsewhere && q != Elsewhere && Owner(p) != Elsewhere && Owner(q) != Elsewhere && PathOf(p) == PathOf(q)
    ensures PathOf(Owner(p)) == PathOf(Owner(q)) && Key(p) == Key(q)
  {
    hide FieldPath, ItemPath, Owner, Key, ArrayOf, NoSlash, PathOf, Word, Storable, Level;
    NotRoot(p);
    NotRoot(q);
    Nearer(p);
    Nearer(q);
    OwnerWord(p);
    OwnerWord(q);
    PathNoSlash(Owner(q));
    WordIsStorable(Key(p));
    FieldPathSplits(PathOf(Owner(p)), Key(p), PathOf(Owner(q)), Key(q));
  }

  lemma SameMember(p: Place, q: Place)
    requires Owner(p) != Elsewhere && Owner(p) == Owner(q) && Key(p) == Key(q)
    ensures p == q
  {
    hide Owner, Key, Member;
    OwnerMember(p);
    OwnerMember(q);
  }

  lemma SameItemOf(p: Place, q: Place)
    requires ArrayOf(p) != Elsewhere && ArrayOf(p) == ArrayOf(q)
    ensures p == q
  {
    hide ArrayOf, Item;
    ArrayItem(p);
    ArrayItem(q);
  }

  lemma NotRoot(p: Place)
    requires Owner(p) != Elsewhere
    ensures p != Root
  {
  }

  lemma SameItem(a: string, b: string)
    requires ItemPath(a) == ItemPath(b)
    ensures a == b
  {
    assert ItemPath(a)[..|a|] == a && ItemPath(b)[..|b|] == b;
  }

  lemma InPlaces(p: Place)
    requires p != Elsewhere
    ensures p in PLACES
  {
  }

  lemma {:induction false} FindComplete(p: Place, places: seq<Place>)
    requires p != Elsewhere && p in places
    ensures Find(PathOf(p), places) == p
  {
    hide PathOf;
    FindSound(PathOf(p), places);
    if places[0] != Elsewhere && PathOf(p) == PathOf(places[0]) {
      PathsDiffer(p, places[0]);
    } else {
      FindComplete(p, places[1..]);
    }
  }

  /** Recognition is exact. */
  lemma Recognised(path: string, p: Place)
    requires p != Elsewhere
    ensures PlaceOf(path) == p <==> path == PathOf(p)
  {
    hide PathOf, Find;
    FindSound(path, PLACES);
    InPlaces(p);
    FindComplete(p, PLACES);
  }

  // ---- The paths of arguments, spelled out -----------------------------------------------

  lemma SpelledMessage()
    ensures PathOf(Message) == "choices[].message"
  {
    hide PathOf;
    RootIsEmpty();
    Nearer(Choices);
    Nearer(Choice);
    Nearer(Message);
  }

  lemma SpelledCall()
    ensures PathOf(ToolCall) == "choices[].message.tool_calls[]"
  {
    hide PathOf;
    SpelledCalls();
    Nearer(ToolCall);
  }

  lemma SpelledCalls()
    ensures PathOf(ToolCalls) == "choices[].message.tool_calls"
  {
    hide PathOf;
    SpelledMessage();
    Nearer(ToolCalls);
  }

  lemma SpelledLegacyArguments()
    ensures PathOf(LegacyArguments) == "choices[].message.function_call.arguments"
  {
    hide PathOf;
    SpelledLegacy();
    Nearer(LegacyArguments);
  }

  lemma SpelledLegacy()
    ensures PathOf(Legacy) == "choices[].message.function_call"
  {
    hide PathOf;
    SpelledMessage();
    Nearer(Legacy);
  }

  lemma SpelledOutputArguments()
    ensures PathOf(OutputArguments) == "output[].arguments"
  {
    hide PathOf;
    RootIsEmpty();
    Nearer(Output);
    Nearer(OutputItem);
    Nearer(OutputArguments);
  }

  lemma SpelledArguments()
    ensures PathOf(FunctionArguments) == "choices[].message.tool_calls[].function.arguments"
  {
    hide PathOf;
    SpelledFunction();
    Nearer(FunctionArguments);
  }

  lemma SpelledFunction()
    ensures PathOf(Function) == "choices[].message.tool_calls[].function"
  {
    hide PathOf;
    SpelledCall();
    Nearer(Function);
  }

  // ---- Strings follow the tree -------------------------------------------------------------

  /** What a stored key looks like. */
  predicate Storable(key: string) {
    (forall i :: 0 <= i < |key| ==> key[i] != '.' && key[i] != '[' && key[i] != ']') || (|key| > 0 && key[0] == '/')
  }

  lemma StoredIsStorable(name: string)
    ensures Storable(StoredKey(name))
  {
  }

  /** Two ways to spell a member's path are the same way. */
  lemma FieldPathSplits(path: string, key: string, owner: string, word: string)
    requires FieldPath(path, key) == FieldPath(owner, word) && Storable(key) && Word(word) && NoSlash(owner)
    ensures path == owner && key == word
  {
    var p, q := FieldPath(path, key), FieldPath(owner, word);
    SlashAt(path, key);
    NoSlashIn(owner, word);
    DotAt(path, key);
    DotAt(owner, word);
    assert Without(key, '.');
    if path != "" && owner != "" { LastCut(path, key, owner, word, '.'); }
  }

  lemma SlashAt(path: string, key: string)
    ensures |key| > 0 ==> var i := if path == "" then 0 else |path| + 1; i < |FieldPath(path, key)| && FieldPath(path, key)[i] == key[0]
  {
  }

  lemma NoSlashIn(owner: string, word: string)
    requires Word(word) && NoSlash(owner)
    ensures NoSlash(FieldPath(owner, word))
  {
  }

  lemma DotAt(path: string, key: string)
    ensures path != "" ==> |path| < |FieldPath(path, key)| && FieldPath(path, key)[|path|] == '.'
  {
  }

  lemma FieldIsNoItem(path: string, key: string, base: string)
    requires Storable(key) && (path != "" || key != "") && NoSlash(ItemPath(base))
    ensures FieldPath(path, key) != ItemPath(base)
  {
    var p, q := FieldPath(path, key), ItemPath(base);
    assert q[|q| - 1] == ']';
    if key != "" {
      assert p[|p| - 1] == key[|key| - 1] && p[|p| - |key|] == key[0];
    } else {
      assert p[|p| - 1] == '.';
    }
  }

  lemma RootMemberOwner(key: string)
    requires Member(Root, key) != Elsewhere
    ensures var q := Member(Root, key); Owner(q) == Root && Key(q) == key && q != Root
  {
  }

  lemma MemberOwner(p: Place, key: string)
    requires Member(p, key) != Elsewhere
    ensures var q := Member(p, key); Owner(q) == p && Key(q) == key && p != Elsewhere && q != Root
  {
    if p == Root { RootMemberOwner(key); }
  }

  /** The path of a member is recognised exactly when the tree says so.  The empty key at
      the root is excluded: its path is the path of the root. */
  lemma MemberPlace(path: string, key: string)
    requires Storable(key) && (path != "" || key != "")
    ensures PlaceOf(FieldPath(path, key)) == Member(PlaceOf(path), key)
  {
    var q := FieldPath(path, key);
    var y, x := Member(PlaceOf(path), key), PlaceOf(q);
    hide FieldPath, PlaceOf, PathOf, Member, Owner, Key, ArrayOf, Storable, NoSlash, Word;
    if y != Elsewhere {
      MemberOwner(PlaceOf(path), key);
      RootIsEmpty();
      if y != Root { Nearer(y); }
      Recognised(path, PlaceOf(path));
      Recognised(q, y);
    } else if x != Elsewhere {
      Recognised(q, x);
      if x != Root { Nearer(x); }
      if x == Root {
        RootIsEmpty();
        FieldNotEmpty(path, key);
      } else if Owner(x) != Elsewhere {
        OwnerWord(x);
        OwnerMember(x);
        PathNoSlash(Owner(x));
        FieldPathSplits(path, key, PathOf(Owner(x)), Key(x));
        Recognised(path, Owner(x));
      } else {
        PathNoSlash(x);
        FieldIsNoItem(path, key, PathOf(ArrayOf(x)));
      }
    }
  }

  lemma FieldNotEmpty(path: string, key: string)
    requires path != "" || key != ""
    ensures FieldPath(path, key) != ""
  {
  }

  lemma ItemArray(p: Place)
    requires Item(p) != Elsewhere
    ensures p != Elsewhere && ArrayOf(Item(p)) == p && Owner(Item(p)) == Elsewhere && Item(p) != Root
  {
  }

  lemma ArrayItem(p: Place)
    requires ArrayOf(p) != Elsewhere
    ensures Item(ArrayOf(p)) == p
  {
  }

  /** The same for the items of an array. */
  lemma ItemPlace(path: string)
    ensures PlaceOf(ItemPath(path)) == Item(PlaceOf(path))
  {
    var q := ItemPath(path);
    var y, x := Item(PlaceOf(path)), PlaceOf(q);
    assert q != "";
    hide ItemPath, FieldPath, PlaceOf, PathOf, Item, Owner, Key, ArrayOf, Word;
    if y != Elsewhere {
      ItemArray(PlaceOf(path));
      Nearer(y);
      Recognised(path, PlaceOf(path));
      Recognised(q, y);
    } else if x != Elsewhere {
      Recognised(q, x);
      RootIsEmpty();
      Nearer(x);
      if Owner(x) != Elsewhere {
        OwnerWord(x);
        WordIsNoItem(PathOf(Owner(x)), Key(x), path);
      } else {
        SameItem(path, PathOf(ArrayOf(x)));
        Recognised(path, ArrayOf(x));
        ArrayItem(x);
      }
    }
  }

  lemma WordIsNoItem(owner: string, word: string, path: string)
    requires Word(word)
    ensures FieldPath(owner, word) != ItemPath(path)
  {
    var p, q := FieldPath(owner, word), ItemPath(path);
    assert q[|q| - 1] == ']';
    if word != "" {
      assert p[|p| - 1] == word[|word| - 1];
    } else if owner != "" {
      assert p[|p| - 1] == '.';
    }
  }
}

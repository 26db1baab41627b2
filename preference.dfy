/**
 * The `useLocalStorage` hook of src/hooks/useLocalStorage.ts, used with the
 * font-size preference. The browser's `localStorage` is a `Storage` object
 * holding a map from keys to strings; the hook keeps the in-memory value and
 * the readiness flag. Whether `getItem` or `setItem` throws is a parameter.
 */
module Preference {
  import opened Wrappers
  import opened RainTypes

  /**
   * `JSON.stringify` of the font-size string: a quoted run of lower-case
   * letters, so no character needs escaping.
   */
  function Encode(v: FontSize): (r: string)
    ensures |r| >= 2 && r[0] == '"' && r[|r| - 1] == '"'
    ensures forall k :: 0 < k < |r| - 1 ==> 'a' <= r[k] <= 'z'
  {
    match v
    case Small => "\"small\""
    case Medium => "\"medium\""
    case Large => "\"large\""
  }

  /** The whitespace `JSON.parse` skips around a value. */
  predicate IsJsonSpace(c: char) {
    c == ' ' || c == '\t' || c == '\n' || c == '\r'
  }

  /** `t` is `s[i..j]`, and everything of `s` outside that slice is whitespace. */
  ghost predicate StripsSpace(s: string, t: string, i: int, j: int) {
    && 0 <= i <= j <= |s|
    && t == s[i..j]
    && forall k :: 0 <= k < |s| && (k < i || j <= k) ==> IsJsonSpace(s[k])
  }

  /** `s` without its leading and trailing JSON whitespace. */
  function Trim(s: string): (t: string)
    ensures exists i, j :: StripsSpace(s, t, i, j)
    ensures t != [] ==> !IsJsonSpace(t[0]) && !IsJsonSpace(t[|t| - 1])
    decreases |s|
  {
    if s == [] then
      assert StripsSpace(s, s, 0, 0);
      s
    else if IsJsonSpace(s[0]) then
      var t := Trim(s[1..]);
      StripsFirst(s, t);
      t
    else if IsJsonSpace(s[|s| - 1]) then
      var t := Trim(s[..|s| - 1]);
      StripsLast(s, s[..|s| - 1], t);
      t
    else
      assert StripsSpace(s, s, 0, |s|);
      s
  }

  /** Stripping the rest of `s` after a leading space strips `s`. */
  lemma StripsFirst(s: string, t: string)
    requires s != [] && IsJsonSpace(s[0])
    requires exists i, j :: StripsSpace(s[1..], t, i, j)
    ensures exists i, j :: StripsSpace(s, t, i, j)
  {
    var i, j :| StripsSpace(s[1..], t, i, j);
    forall k | 1 <= k < |s| ensures s[k] == s[1..][k - 1] { }
    assert StripsSpace(s, t, i + 1, j + 1);
  }

  /** Stripping `s` without a trailing space strips `s`. */
  lemma StripsLast(s: string, init: string, t: string)
    requires s != [] && IsJsonSpace(s[|s| - 1]) && init == s[..|s| - 1]
    requires exists i, j :: StripsSpace(init, t, i, j)
    ensures exists i, j :: StripsSpace(s, t, i, j)
  {
    var i, j :| StripsSpace(init, t, i, j);
    assert StripsSpace(s, t, i, j);
  }

  /** `JSON.parse`, for texts that denote one of the three font sizes; `None` stands for a parse failure. */
  function Decode(s: string): (r: Option<FontSize>)
    ensures r.Some? ==> Trim(s) == Encode(r.value)
  {
    var t := Trim(s);
    if t == Encode(Small) then Some(Small)
    else if t == Encode(Medium) then Some(Medium)
    else if t == Encode(Large) then Some(Large)
    else None
  }

  /** Decoding an encoded preference gives it back, and no encoding is empty. */
  lemma DecodeEncode(v: FontSize)
    ensures Decode(Encode(v)) == Some(v)
    ensures Encode(v) != ""
  {
    assert Trim(Encode(v)) == Encode(v);
  }

  /** A whitespace character after a text does not change its trimming. */
  lemma {:induction false} TrimDropsTrailing(s: string, c: char)
    requires IsJsonSpace(c)
    ensures Trim(s + [c]) == Trim(s)
    decreases |s|
  {
    var u := s + [c];
    if s == [] {
      assert u[1..] == [];
    } else if IsJsonSpace(s[0]) {
      assert u[1..] == s[1..] + [c];
      TrimDropsTrailing(s[1..], c);
    } else {
      assert u[..|u| - 1] == s;
    }
  }

  /** Leading whitespace does not change the trimming. */
  lemma {:induction false} TrimDropsPrefix(pre: string, s: string)
    requires forall k :: 0 <= k < |pre| ==> IsJsonSpace(pre[k])
    ensures Trim(pre + s) == Trim(s)
  {
    if pre == [] {
      assert pre + s == s;
    } else {
      assert (pre + s)[1..] == pre[1..] + s;
      TrimDropsPrefix(pre[1..], s);
    }
  }

  /** Trailing whitespace does not change the trimming. */
  lemma {:induction false} TrimDropsSuffix(s: string, post: string)
    requires forall k :: 0 <= k < |post| ==> IsJsonSpace(post[k])
    ensures Trim(s + post) == Trim(s)
    decreases |post|
  {
    if post == [] {
      assert s + post == s;
    } else {
      assert s + post == (s + [post[0]]) + post[1..];
      TrimDropsSuffix(s + [post[0]], post[1..]);
      TrimDropsTrailing(s, post[0]);
    }
  }

  /** An encoding surrounded by any JSON whitespace still decodes to its value. */
  lemma DecodePadded(pre: string, post: string, v: FontSize)
    requires forall c :: c in pre + post ==> IsJsonSpace(c)
    ensures Decode(pre + Encode(v) + post) == Some(v)
  {
    var e := Encode(v);
    assert forall k :: 0 <= k < |pre| ==> pre[k] in pre + post;
    assert forall k :: 0 <= k < |post| ==> post[k] in pre + post;
    assert pre + e + post == pre + (e + post);
    TrimDropsPrefix(pre, e + post);
    TrimDropsSuffix(e, post);
    DecodeEncode(v);
  }

  /** The value read from `item` by the load effect, starting from `current`. */
  function LoadedValue(current: FontSize, item: Option<string>, readFault: bool): (v: FontSize)
    ensures v != current ==> !readFault && item.Some? && item.value != "" && Decode(item.value) == Some(v)
    ensures !readFault && item.Some? && item.value != "" && Decode(item.value).Some? ==> v == Decode(item.value).value
  {
    if readFault then current
    else match item
      case None => current
      case Some(s) =>
        if s == "" then current
        else match Decode(s)
          case None => current
          case Some(d) => d
  }

  /** `getItem`: the stored string, or `null` when the key is absent. */
  function GetItem(items: map<string, string>, key: string): (r: Option<string>)
    ensures r.Some? <==> key in items
    ensures r.Some? ==> r.value == items[key]
  {
    if key in items then Some(items[key]) else None
  }

  /** Once something was stored under the key, a load reads it back. */
  lemma LoadAfterStore(items: map<string, string>, key: string, current: FontSize, v: FontSize)
    ensures LoadedValue(current, GetItem(items[key := Encode(v)], key), false) == v
  {
    DecodeEncode(v);
  }

  /** The browser's key-value store. */
  class Storage {
    var items: map<string, string>

    constructor (items: map<string, string>)
      ensures this.items == items
    {
      this.items := items;
    }
  }

  /** The argument of `setValue`: a new value or a functional updater. */
  datatype Update = Value(v: FontSize) | Updater(f: FontSize -> FontSize)

  /**
   * The value `setValue` stores: a plain value as given, whatever the
   * current value; an updater applied to the current value.
   */
  function Apply(update: Update, current: FontSize): (r: FontSize)
    ensures update.Value? ==> r == update.v
    ensures update.Updater? ==> r == update.f(current)
  {
    match update
    case Value(v) => v
    case Updater(f) => f(current)
  }

  class LocalStorageHook {
    const key: string
    const storage: Storage
    var storedValue: FontSize
    var isLocalStorageReady: bool

    /** The two `useState` calls: the initial value, not yet ready. */
    constructor (key: string, initialValue: FontSize, storage: Storage)
      ensures this.key == key && this.storage == storage
      ensures storedValue == initialValue && !isLocalStorageReady
    {
      this.key := key;
      this.storage := storage;
      storedValue := initialValue;
      isLocalStorageReady := false;
    }

    /**
     * The load effect: a non-empty item that decodes replaces the value;
     * an absent or empty item, a decode failure or a read failure keeps it;
     * every path ends ready.
     */
    method Load(readFault: bool)
      modifies this
      ensures isLocalStorageReady
      ensures storedValue == LoadedValue(old(storedValue), GetItem(storage.items, key), readFault)
    {
      if !readFault {
        var item := GetItem(storage.items, key);
        if item.Some? && item.value != "" {
          var parsed := Decode(item.value);
          if parsed.Some? {
            storedValue := parsed.value;
          }
        }
      }
      isLocalStorageReady := true;
    }

    /**
     * `setValue`: the in-memory value always changes; the store is written,
     * under `key` only, when the hook is ready and the write succeeds.
     */
    method SetValue(update: Update, writeFault: bool)
      modifies this, storage
      ensures storedValue == Apply(update, old(storedValue))
      ensures isLocalStorageReady == old(isLocalStorageReady)
      ensures old(isLocalStorageReady) && !writeFault ==> storage.items == old(storage.items)[key := Encode(storedValue)]
      ensures !old(isLocalStorageReady) || writeFault ==> storage.items == old(storage.items)
      ensures forall k :: k != key ==> GetItem(storage.items, k) == GetItem(old(storage.items), k)
    {
      var valueToStore := Apply(update, storedValue);
      storedValue := valueToStore;
      if isLocalStorageReady && !writeFault {
        storage.items := storage.items[key := Encode(valueToStore)];
      }
    }
  }

  /**
   * On an empty store a fresh hook loads the default and becomes ready; once
   * ready, a value set through it is what the next fresh hook on the same
   * store loads.
   */
  method PreferenceRoundTrip(key: string, v: FontSize) returns (first: FontSize, firstReady: bool, second: FontSize, secondReady: bool)
    ensures first == Medium && firstReady
    ensures second == v && secondReady
  {
    var storage := new Storage(map[]);
    var hook := new LocalStorageHook(key, Medium, storage);
    hook.Load(false);
    first, firstReady := hook.storedValue, hook.isLocalStorageReady;
    hook.SetValue(Value(v), false);
    var next := new LocalStorageHook(key, Medium, storage);
    next.Load(false);
    LoadAfterStore(map[], key, Medium, v);
    second, secondReady := next.storedValue, next.isLocalStorageReady;
  }

  /** Before the load, `setValue` changes the value but leaves the store alone. */
  method SetBeforeReady(key: string, items: map<string, string>, v: FontSize) returns (value: FontSize, stored: map<string, string>)
    ensures value == v && stored == items
  {
    var storage := new Storage(items);
    var hook := new LocalStorageHook(key, Medium, storage);
    hook.SetValue(Value(v), false);
    value, stored := hook.storedValue, storage.items;
  }
}

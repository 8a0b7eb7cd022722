/**
 * The database helpers' own logic: the partial-update builders for the
 * preferences and the profile (one `column=%s` clause and one value per
 * argument that is not None, in parameter order), the insert used when no
 * preferences row exists, the decryption that answers None on any failure,
 * and the shaping of a fetched user record around its encrypted income.
 * The database is represented by the statements the code would execute;
 * Fernet decryption is a lookup in a keyring from tokens to plaintexts.
 */
module DbUtils {
  import opened Common
  import opened Text
  import opened Parse

  /** A Python value bound to a placeholder or held in a record. */
  datatype Value = Null | Num(n: real) | Str(s: string) | Int(i: int) | Token(t: string)

  /** A statement handed to cursor.execute: its SQL text and parameters. */
  datatype Statement = Statement(sql: string, params: seq<Value>)

  /** The tokens this server's key can open, with their plaintexts. */
  type Keyring = map<string, string>

  /** decrypt_value: the plaintext of a token the key opens, None on any failure. */
  function DecryptValue(keyring: Keyring, v: Value): (r: Option<string>)
    ensures r.Some? <==> v.Token? && v.t in keyring
    ensures r.Some? ==> r.value == keyring[v.t]
  {
    if v.Token? && v.t in keyring then Some(keyring[v.t]) else None
  }

  // ---------- the partial-update builder ----------

  /** The SET clauses for the first k arguments that are not None, in order. */
  function SetClauses(cols: seq<string>, args: seq<Value>, k: nat): (r: seq<string>)
    requires k <= |cols| && k <= |args|
    ensures |r| <= k
  {
    if k == 0 then []
    else SetClauses(cols, args, k - 1) + (if args[k - 1] != Null then [cols[k - 1] + "=%s"] else [])
  }

  /** The values bound to those clauses, in the same order. */
  function SetValues(args: seq<Value>, k: nat): (r: seq<Value>)
    requires k <= |args|
    ensures |r| <= k
    ensures forall i :: 0 <= i < |r| ==> r[i] != Null
  {
    if k == 0 then []
    else SetValues(args, k - 1) + (if args[k - 1] != Null then [args[k - 1]] else [])
  }

  /** One clause per value, and none at all exactly when every argument is None. */
  lemma {:induction false} ClausesAligned(cols: seq<string>, args: seq<Value>, k: nat)
    requires k <= |cols| && k <= |args|
    ensures |SetClauses(cols, args, k)| == |SetValues(args, k)|
    ensures SetClauses(cols, args, k) == [] <==> forall i :: 0 <= i < k ==> args[i] == Null
  {
    if k > 0 {
      ClausesAligned(cols, args, k - 1);
    }
  }

  /** The clause for column j lists it exactly when its argument is set. */
  lemma {:induction false} ClauseForColumn(cols: seq<string>, args: seq<Value>, k: nat, j: nat)
    requires k <= |cols| && k <= |args| && j < k
    requires forall i, i' :: 0 <= i < i' < k ==> cols[i] != cols[i']
    requires forall i :: 0 <= i < k ==> '=' !in cols[i]
    ensures cols[j] + "=%s" in SetClauses(cols, args, k) <==> args[j] != Null
  {
    var n := k - 1;
    if j < n {
      ClauseForColumn(cols, args, n, j);
      if args[n] != Null {
        assert cols[j] + "=%s" != cols[n] + "=%s" by {
          ColumnClauseInjective(cols[j], cols[n]);
        }
      }
    } else if cols[j] + "=%s" in SetClauses(cols, args, n) {
      ClauseHasSetColumn(cols, args, n, cols[j]);
    }
  }

  /** Every clause names one of the columns it was built from. */
  lemma {:induction false} ClauseHasSetColumn(cols: seq<string>, args: seq<Value>, k: nat, c: string)
    requires k <= |cols| && k <= |args|
    requires forall i :: 0 <= i < k ==> '=' !in cols[i]
    requires '=' !in c
    requires c + "=%s" in SetClauses(cols, args, k)
    ensures exists i :: 0 <= i < k && cols[i] == c
  {
    var n := k - 1;
    if c + "=%s" in SetClauses(cols, args, n) {
      ClauseHasSetColumn(cols, args, n, c);
    } else {
      ColumnClauseInjective(c, cols[n]);
    }
  }

  lemma ColumnClauseInjective(a: string, b: string)
    requires '=' !in a && '=' !in b
    ensures a + "=%s" == b + "=%s" <==> a == b
  {
    if a + "=%s" == b + "=%s" {
      assert a == (a + "=%s")[..|a|];
      assert b == (b + "=%s")[..|b|];
    }
  }

  /** One `if x is not None: updates.append("x=%s"); values.append(x)` block, for column k. */
  method AppendIfSet(cols: seq<string>, args: seq<Value>, k: nat, updates: seq<string>, values: seq<Value>)
    returns (updates': seq<string>, values': seq<Value>)
    requires k < |cols| && k < |args|
    requires updates == SetClauses(cols, args, k) && values == SetValues(args, k)
    ensures updates' == SetClauses(cols, args, k + 1) && values' == SetValues(args, k + 1)
  {
    updates', values' := updates, values;
    if args[k] != Null {
      updates' := updates' + [cols[k] + "=%s"];
      values' := values' + [args[k]];
    }
  }

  // ---------- update_user_preferences ----------

  /** The eleven preference parameters, in the order the function takes them. */
  function PreferenceColumns(): (r: seq<string>)
    ensures |r| == 11
  {
    ["emergency_fund_target", "monthly_contribution", "emergency_goal", "current_savings", "monthly_expenses",
     "budget_housing_percent", "budget_food_percent", "budget_transportation_percent",
     "budget_utilities_percent", "budget_entertainment_percent", "budget_other_percent"]
  }

  function UpdateSql(table: string, key: string, updates: seq<string>): string {
    "UPDATE " + table + " SET " + Join(", ", updates) + " WHERE " + key + "=%s"
  }

  const InsertPreferencesSql: string :=
    "INSERT INTO user_preferences (user_id, emergency_fund_target, monthly_contribution, emergency_goal, "
    + "current_savings, monthly_expenses, budget_housing_percent, budget_food_percent, "
    + "budget_transportation_percent, budget_utilities_percent, budget_entertainment_percent, budget_other_percent) "
    + "VALUES (%s, %s, %s, %s, %s, %s, %s, %s, %s, %s, %s, %s)"

  /** The eleven if-blocks of update_user_preferences, one per column. */
  method PreferenceUpdates(cols: seq<string>, args: seq<Value>) returns (updates: seq<string>, values: seq<Value>)
    requires |cols| == 11 && |args| == 11
    ensures updates == SetClauses(cols, args, 11) && values == SetValues(args, 11)
  {
    updates, values := [], [];
    updates, values := AppendIfSet(cols, args, 0, updates, values);
    updates, values := AppendIfSet(cols, args, 1, updates, values);
    updates, values := AppendIfSet(cols, args, 2, updates, values);
    updates, values := AppendIfSet(cols, args, 3, updates, values);
    updates, values := AppendIfSet(cols, args, 4, updates, values);
    updates, values := AppendIfSet(cols, args, 5, updates, values);
    updates, values := AppendIfSet(cols, args, 6, updates, values);
    updates, values := AppendIfSet(cols, args, 7, updates, values);
    updates, values := AppendIfSet(cols, args, 8, updates, values);
    updates, values := AppendIfSet(cols, args, 9, updates, values);
    updates, values := AppendIfSet(cols, args, 10, updates, values);
  }

  /**
   * update_user_preferences, given whether a row exists for the user.
   * Returns the statements it executes and its result.
   */
  method UpdateUserPreferences(rowExists: bool, userId: int, args: seq<Value>)
    returns (executed: seq<Statement>, result: bool)
    requires |args| == 11
    ensures result
    ensures rowExists && SetClauses(PreferenceColumns(), args, 11) == [] ==> executed == []
    ensures rowExists && SetClauses(PreferenceColumns(), args, 11) != [] ==>
      executed == [Statement(UpdateSql("user_preferences", "user_id", SetClauses(PreferenceColumns(), args, 11)),
                             SetValues(args, 11) + [Int(userId)])]
    ensures !rowExists ==> executed == [Statement(InsertPreferencesSql, [Int(userId)] + args)]
  {
    var cols := PreferenceColumns();
    executed := [];
    if rowExists {
      var updates, values := PreferenceUpdates(cols, args);
      if updates != [] {
        values := values + [Int(userId)];
        executed := [Statement(UpdateSql("user_preferences", "user_id", updates), values)];
      }
    } else {
      executed := [Statement(InsertPreferencesSql, [Int(userId)] + args)];
    }
    result := true;
  }

  /** With a row present and every argument None, nothing is executed, yet the result is True. */
  method NothingToUpdate(userId: int) returns (executed: seq<Statement>, result: bool)
    ensures executed == [] && result
  {
    var args := seq(11, _ => Null);
    ClausesAligned(PreferenceColumns(), args, 11);
    executed, result := UpdateUserPreferences(true, userId, args);
  }

  // ---------- update_user_profile ----------

  /** The seven profile parameters; the income is stored under its encrypted column. */
  function ProfileColumns(): (r: seq<string>)
    ensures |r| == 7
  {
    ["full_name", "phone", "age", "occupation", "annual_income_encrypted", "financial_goal", "risk_tolerance"]
  }

  /** The values bound: the income replaced by its encryption when it is given. */
  function ProfileArgs(args: seq<Value>, sealed: string): (r: seq<Value>)
    requires |args| == 7
    ensures |r| == 7
    ensures forall i :: 0 <= i < 7 && i != 4 ==> r[i] == args[i]
    ensures r[4] == if args[4] != Null then Token(sealed) else Null
  {
    args[4 := if args[4] != Null then Token(sealed) else Null]
  }

  /** The seven if-blocks of update_user_profile, one per column. */
  method ProfileUpdates(cols: seq<string>, bound: seq<Value>) returns (updates: seq<string>, values: seq<Value>)
    requires |cols| == 7 && |bound| == 7
    ensures updates == SetClauses(cols, bound, 7) && values == SetValues(bound, 7)
  {
    updates, values := [], [];
    updates, values := AppendIfSet(cols, bound, 0, updates, values);
    updates, values := AppendIfSet(cols, bound, 1, updates, values);
    updates, values := AppendIfSet(cols, bound, 2, updates, values);
    updates, values := AppendIfSet(cols, bound, 3, updates, values);
    updates, values := AppendIfSet(cols, bound, 4, updates, values);
    updates, values := AppendIfSet(cols, bound, 5, updates, values);
    updates, values := AppendIfSet(cols, bound, 6, updates, values);
  }

  /**
   * update_user_profile; `sealed` is the token encrypt_value produced for
   * the income. True iff some argument is set.
   */
  method UpdateUserProfile(userId: int, args: seq<Value>, sealed: string)
    returns (executed: seq<Statement>, result: bool)
    requires |args| == 7
    ensures result <==> exists i :: 0 <= i < 7 && args[i] != Null
    ensures result ==>
      executed == [Statement(UpdateSql("users", "id", SetClauses(ProfileColumns(), ProfileArgs(args, sealed), 7)),
                             SetValues(ProfileArgs(args, sealed), 7) + [Int(userId)])]
    ensures !result ==> executed == []
  {
    var cols := ProfileColumns();
    var bound := args;
    if args[4] != Null {
      bound := bound[4 := Token(sealed)];
    }
    assert bound == ProfileArgs(args, sealed);
    var updates, values := ProfileUpdates(cols, bound);
    ClausesAligned(cols, bound, 7);
    executed := [];
    if updates != [] {
      ghost var i :| 0 <= i < 7 && bound[i] != Null;
      assert args[i] != Null;
      values := values + [Int(userId)];
      executed := [Statement(UpdateSql("users", "id", updates), values)];
      result := true;
    } else {
      forall i | 0 <= i < 7
        ensures args[i] == Null
      {
        assert bound[i] == Null;
      }
      result := false;
    }
  }

  // ---------- create_user_preferences ----------

  /** How the INSERT ended: inserted, refused as a duplicate, or another database error. */
  datatype InsertOutcome = Inserted | IntegrityError | OtherError

  /** create_user_preferences: True on insert and on a duplicate, an exception (None) otherwise. */
  function CreateUserPreferences(outcome: InsertOutcome): (r: Option<bool>)
    ensures r == Some(true) <==> outcome != OtherError
    ensures r.None? <==> outcome == OtherError
  {
    match outcome
    case Inserted => Some(true)
    case IntegrityError => Some(true)
    case OtherError => None
  }

  // ---------- get_user_* ----------

  type Record = map<string, Value>

  const EncryptedIncome: string := "annual_income_encrypted"

  /** Python truthiness of a fetched column. */
  predicate Truthy(v: Value) {
    match v
    case Null => false
    case Num(n) => n != 0.0
    case Str(s) => s != ""
    case Int(i) => i != 0
    case Token(t) => t != ""
  }

  /** What shaping a record can end in: a record, or the ValueError float() raised. */
  datatype Shaped = NoUser | Found(user: Record) | FloatError

  /** The decryption a truthy encrypted income goes through: a non-empty plaintext, or None. */
  function Plaintext(u: Record, keyring: Keyring): Option<string>
    requires EncryptedIncome in u
  {
    var d := DecryptValue(keyring, u[EncryptedIncome]);
    if d.Some? && d.value != "" then d else None
  }

  /** Whether the record holds an encrypted income that Python treats as true. */
  predicate HasEncryptedIncome(u: Record) {
    EncryptedIncome in u && Truthy(u[EncryptedIncome])
  }

  /**
   * The decryption step of get_user_single / get_user_by_email /
   * get_user_by_id, which edits the fetched dict in place. A truthy
   * encrypted income is deleted and, when it decrypts to a non-empty
   * plaintext, annual_income is set to float() of it; a falsy one stays.
   * Every other field stays as fetched.
   */
  method ShapeUser(user: Option<Record>, keyring: Keyring) returns (r: Shaped)
    ensures user.None? <==> r == NoUser
    ensures user.Some? && !HasEncryptedIncome(user.value) ==> r == Found(user.value)
    ensures user.Some? && HasEncryptedIncome(user.value) && Plaintext(user.value, keyring).None? ==>
      r == Found(user.value - {EncryptedIncome})
    ensures user.Some? && HasEncryptedIncome(user.value) && Plaintext(user.value, keyring).Some? ==>
      match PyFloat(Plaintext(user.value, keyring).value)
      case Some(x) =>
        r.Found? && EncryptedIncome !in r.user && "annual_income" in r.user && r.user["annual_income"] == Num(x)
        && r.user.Keys == user.value.Keys - {EncryptedIncome} + {"annual_income"}
        && forall k :: k in r.user && k != "annual_income" ==> r.user[k] == user.value[k]
      case None => r == FloatError
  {
    if user.None? {
      return NoUser;
    }
    var u := user.value;
    if EncryptedIncome in u && Truthy(u[EncryptedIncome]) {
      var decrypted := DecryptValue(keyring, u[EncryptedIncome]);
      if decrypted.Some? && decrypted.value != "" {
        match PyFloat(decrypted.value) {
          case Some(x) => u := u["annual_income" := Num(x)];
          case None => return FloatError;
        }
      }
      u := u - {EncryptedIncome};
    }
    r := Found(u);
  }
}

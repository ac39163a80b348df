/**
 * Input validation (internal/s3tables/validation.go): the three names given to the
 * create command are checked for length and for their character class, in that order.
 *
 * A name is a Go string, a byte string: each `char` stands for one byte, so `|name|`
 * is Go's `len(name)`. The patterns are anchored (`^[...]+$`) and list ASCII bytes only.
 */
module Validation {
  import opened Wrappers

  /** ValidationError: which field was rejected and why */
  datatype ValidationError = ValidationError(field: string, message: string)
  {
    /** `Error()`: "invalid <field>: <message>" */
    function Error(): (s: string)
      ensures |s| == 10 + |field| + |message|
      ensures s[..8] == "invalid " && s[8..8 + |field|] == field && s[8 + |field|..10 + |field|] == ": "
      ensures s[10 + |field|..] == message
    {
      "invalid " + field + ": " + message
    }
  }

  /** The class `[0-9a-z-]` of the table bucket pattern */
  predicate IsBucketChar(c: char)
  {
    '0' <= c <= '9' || 'a' <= c <= 'z' || c == '-'
  }

  /** The class `[0-9a-z_]` of the namespace and table patterns */
  predicate IsNameChar(c: char)
  {
    '0' <= c <= '9' || 'a' <= c <= 'z' || c == '_'
  }

  /** `^[0-9a-z-]+$` */
  predicate MatchesBucketPattern(name: string)
  {
    |name| > 0 && forall i :: 0 <= i < |name| ==> IsBucketChar(name[i])
  }

  /** `^[0-9a-z_]+$` */
  predicate MatchesNamePattern(name: string)
  {
    |name| > 0 && forall i :: 0 <= i < |name| ==> IsNameChar(name[i])
  }

  const BucketField := "table-bucket"
  const NamespaceField := "namespace"
  const TableField := "table"

  /** `ValidateTableBucket`: nil (None) when the name is acceptable */
  function ValidateTableBucket(name: string): (r: Option<ValidationError>)
    ensures r.None? <==> 3 <= |name| <= 63 && forall i :: 0 <= i < |name| ==> IsBucketChar(name[i])
    ensures r.Some? ==> r.value.field == BucketField
    ensures |name| < 3 ==> r == Some(ValidationError(BucketField, "must be at least 3 characters"))
    ensures |name| > 63 ==> r == Some(ValidationError(BucketField, "must be at most 63 characters"))
    ensures 3 <= |name| <= 63 && r.Some? ==>
              r.value.message == "must contain only lowercase letters, numbers, and hyphens"
  {
    if |name| < 3 then
      Some(ValidationError(BucketField, "must be at least 3 characters"))
    else if |name| > 63 then
      Some(ValidationError(BucketField, "must be at most 63 characters"))
    else if !MatchesBucketPattern(name) then
      Some(ValidationError(BucketField, "must contain only lowercase letters, numbers, and hyphens"))
    else
      None
  }

  /** `ValidateNamespace` */
  function ValidateNamespace(name: string): (r: Option<ValidationError>)
    ensures r.None? <==> 1 <= |name| <= 255 && forall i :: 0 <= i < |name| ==> IsNameChar(name[i])
    ensures r.Some? ==> r.value.field == NamespaceField
    ensures |name| < 1 ==> r == Some(ValidationError(NamespaceField, "must be at least 1 character"))
    ensures |name| > 255 ==> r == Some(ValidationError(NamespaceField, "must be at most 255 characters"))
    ensures 1 <= |name| <= 255 && r.Some? ==>
              r.value.message == "must contain only lowercase letters, numbers, and underscores"
  {
    if |name| < 1 then
      Some(ValidationError(NamespaceField, "must be at least 1 character"))
    else if |name| > 255 then
      Some(ValidationError(NamespaceField, "must be at most 255 characters"))
    else if !MatchesNamePattern(name) then
      Some(ValidationError(NamespaceField, "must contain only lowercase letters, numbers, and underscores"))
    else
      None
  }

  /** `ValidateTable`: the namespace rules under the field name "table" */
  function ValidateTable(name: string): (r: Option<ValidationError>)
    ensures r.None? <==> 1 <= |name| <= 255 && forall i :: 0 <= i < |name| ==> IsNameChar(name[i])
    ensures r.Some? ==> r.value.field == TableField
    ensures |name| < 1 ==> r == Some(ValidationError(TableField, "must be at least 1 character"))
    ensures |name| > 255 ==> r == Some(ValidationError(TableField, "must be at most 255 characters"))
    ensures 1 <= |name| <= 255 && r.Some? ==>
              r.value.message == "must contain only lowercase letters, numbers, and underscores"
  {
    if |name| < 1 then
      Some(ValidationError(TableField, "must be at least 1 character"))
    else if |name| > 255 then
      Some(ValidationError(TableField, "must be at most 255 characters"))
    else if !MatchesNamePattern(name) then
      Some(ValidationError(TableField, "must contain only lowercase letters, numbers, and underscores"))
    else
      None
  }

  /** `ValidateAll`: the first failure in the order bucket, namespace, table */
  function ValidateAll(tableBucket: string, namespace: string, table: string): (r: Option<ValidationError>)
    ensures r.None? <==>
              ValidateTableBucket(tableBucket).None? && ValidateNamespace(namespace).None? && ValidateTable(table).None?
    ensures ValidateTableBucket(tableBucket).Some? ==> r == ValidateTableBucket(tableBucket)
    ensures ValidateTableBucket(tableBucket).None? && ValidateNamespace(namespace).Some? ==>
              r == ValidateNamespace(namespace)
    ensures ValidateTableBucket(tableBucket).None? && ValidateNamespace(namespace).None? ==>
              r == ValidateTable(table)
  {
    var b := ValidateTableBucket(tableBucket);
    if b.Some? then b
    else
      var n := ValidateNamespace(namespace);
      if n.Some? then n else ValidateTable(table)
  }

  /** The namespace and table rules accept the same names and differ only in the field they report */
  lemma NamespaceAndTableRulesAgree(name: string)
    ensures ValidateNamespace(name).None? <==> ValidateTable(name).None?
    ensures ValidateNamespace(name).Some? ==>
              ValidateTable(name) == Some(ValidateNamespace(name).value.(field := TableField))
  {
  }

  /** A name accepted for a table bucket that has no hyphen is accepted for a namespace and a table */
  lemma HyphenFreeBucketNameIsValidName(name: string)
    requires ValidateTableBucket(name).None?
    requires forall i :: 0 <= i < |name| ==> name[i] != '-'
    ensures ValidateNamespace(name).None? && ValidateTable(name).None?
  {
  }
}

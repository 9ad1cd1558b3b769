/**
 * The shared table (src/components/table/table.jsx): every cell goes through one normalising
 * render step, and the pagination control is derived from the page, the page count and the data.
 */
module Table {
  import opened Wrappers
  import opened Js
  import Text

  /** A column as the cell step sees it: its dataIndex and, when it has a render, what that render returned. */
  datatype Column = Column(dataIndex: Option<string>, rendered: Option<Value>)

  const Placeholder := Str("----")

  /**
   * The date test on the lower-cased dataIndex, as written. It reduces to
   * `includes("date") || endsWith("at")`: the other two tests imply the includes test.
   */
  predicate IsDateField(lower: string)
    ensures IsDateField(lower) <==> Text.Contains(lower, "date") || Text.EndsWith(lower, "at")
  {
    DateTestsImplyIncludes(lower);
    Text.EndsWith(lower, "date") || Text.EndsWith(lower, "at") || Text.Contains(lower, "date") || lower == "date"
  }

  /**
   * The exclusion list never applies: neither excluded name passes the date test, so a dataIndex
   * is formatted exactly when its lower-cased form contains "date" or ends with "at".
   */
  predicate ShouldFormatDate(dataIndex: string)
    ensures ShouldFormatDate(dataIndex) <==> IsDateField(Text.Lower(dataIndex))
    ensures ShouldFormatDate(dataIndex) <==>
      Text.Contains(Text.Lower(dataIndex), "date") || Text.EndsWith(Text.Lower(dataIndex), "at")
  {
    ExcludedAreNotDates();
    var lower := Text.Lower(dataIndex);
    IsDateField(lower) && lower != "designation" && lower != "status"
  }

  /** Ending with "date", or being "date", implies containing "date". */
  lemma DateTestsImplyIncludes(lower: string)
    ensures Text.EndsWith(lower, "date") || lower == "date" ==> Text.Contains(lower, "date")
  {
    if Text.EndsWith(lower, "date") {
      Text.EndsWithContains(lower, "date");
    }
    if lower == "date" {
      assert Text.StartsWith(lower, "date");
    }
  }

  lemma ExcludedAreNotDates()
    ensures !IsDateField("designation") && !IsDateField("status")
  {
    NotContainsDate("designation");
    NotContainsDate("status");
    assert !Text.EndsWith("designation", "at") && !Text.EndsWith("status", "at");
  }

  /** Neither excluded name contains "date": no 'd' of theirs is followed by "ate". */
  lemma NotContainsDate(s: string)
    requires s == "designation" || s == "status"
    ensures !Text.Contains(s, "date")
  {
    if Text.Contains(s, "date") {
      Text.ContainsWitness(s, "date");
      var i :| Text.OccursAt(s, "date", i);
      Text.OccursAtChars(s, "date", i);
      assert false;
    }
  }

  /** `col.render ? col.render(text, record, index) : text` */
  function Initial(col: Column, text: Value): (r: Value)
    ensures col.rendered.Some? ==> r == col.rendered.value
    ensures col.rendered.None? ==> r == text
  {
    if col.rendered.Some? then col.rendered.value else text
  }

  predicate IsDateColumn(col: Column) {
    col.dataIndex.Some? && col.dataIndex.value != "" && ShouldFormatDate(col.dataIndex.value)
  }

  /** The date step: a truthy value dayjs accepts is formatted, a falsy one becomes the placeholder. */
  function DateStep(col: Column, value: Value, formatDate: Value -> Option<string>): (r: Value)
    ensures !IsDateColumn(col) ==> r == value
    ensures IsDateColumn(col) ==> !IsNullish(r)
    ensures IsDateColumn(col) && !Truthy(value) ==> r == Placeholder
    ensures IsDateColumn(col) && Truthy(value) && formatDate(value).Some? ==> r == Str(formatDate(value).value)
    ensures IsDateColumn(col) && Truthy(value) && formatDate(value).None? ==> r == value
  {
    if !IsDateColumn(col) then value
    else if Truthy(value) then (match formatDate(value) case Some(f) => Str(f) case None => value)
    else Placeholder
  }

  /** `countryCode && phoneNo ? \`${countryCode} ${phoneNo}\` : "----"` over `record || {}` */
  function PhoneText(record: Value): (r: Value)
    ensures Truthy(r)
    ensures r == Placeholder <==> !(Truthy(Member(record, "countryCode")) && Truthy(Member(record, "phoneNo")))
    ensures r != Placeholder ==>
      r == Str(ToJsString(Member(record, "countryCode")) + " " + ToJsString(Member(record, "phoneNo")))
  {
    var countryCode, phoneNo := Member(record, "countryCode"), Member(record, "phoneNo");
    if Truthy(countryCode) && Truthy(phoneNo) then
      var text := ToJsString(countryCode) + " " + ToJsString(phoneNo);
      assert text[|ToJsString(countryCode)|] == ' ';
      Str(text)
    else Placeholder
  }

  /**
   * The value a cell shows. formatDate is dayjs: the formatted text of a valid date value, None
   * for one dayjs rejects.
   */
  function CellValue(col: Column, text: Value, record: Value, formatDate: Value -> Option<string>): (r: Value)
    ensures !IsBlank(r)
    ensures col.dataIndex == Some("phoneNumber") ==> r == PhoneText(record)
    ensures col.dataIndex != Some("phoneNumber") && IsDateColumn(col) && !Truthy(Initial(col, text)) ==> r == Placeholder
    ensures col.dataIndex != Some("phoneNumber") && IsDateColumn(col) && Truthy(Initial(col, text)) ==>
      r == match formatDate(Initial(col, text))
           case Some(f) => if f == "" then Placeholder else Str(f)
           case None => Initial(col, text)
    ensures col.dataIndex != Some("phoneNumber") && !IsDateColumn(col) ==>
      r == if IsBlank(Initial(col, text)) then Placeholder else Initial(col, text)
  {
    var value := DateStep(col, Initial(col, text), formatDate);
    var value := if col.dataIndex == Some("phoneNumber") then PhoneText(record) else value;
    if IsBlank(value) then Placeholder else value
  }

  /** The email and contact columns keep their case; every other column is capitalised. */
  function ClassName(col: Column): (r: string)
    ensures r == "text-[#8C8484]" <==> col.dataIndex == Some("contact") || col.dataIndex == Some("email")
    ensures r != "text-[#8C8484]" ==> r == "capitalize text-[#8C8484]"
  {
    if col.dataIndex == Some("contact") || col.dataIndex == Some("email") then "text-[#8C8484]"
    else "capitalize text-[#8C8484]"
  }

  /** The table's rows per page when the caller passes none. */
  const DefaultPageSize := 20

  function PageSizeArgument(pageSize: Option<int>): (r: int)
    ensures pageSize.None? ==> r == DefaultPageSize
    ensures pageSize.Some? ==> r == pageSize.value
  {
    if pageSize.Some? then pageSize.value else DefaultPageSize
  }

  datatype Pagination = Pagination(current: Value, total: int, pageSize: int)

  /**
   * The pagination prop: off unless both page and setPage are given; the total is
   * totalPages * pageSize when totalPages is non-zero, else the row count, else 0.
   */
  function PaginationOf(page: Value, hasSetPage: bool, totalPages: int, dataLength: Option<nat>, pageSize: int): (r: Option<Pagination>)
    ensures r.Some? <==> Truthy(page) && hasSetPage
    ensures r.Some? ==> r.value.current == page && r.value.pageSize == pageSize
    ensures r.Some? && totalPages != 0 ==> r.value.total == totalPages * pageSize
    ensures r.Some? && totalPages == 0 ==> r.value.total == if dataLength.Some? then dataLength.value else 0
  {
    if Truthy(page) && hasSetPage then
      Some(Pagination(page, if totalPages != 0 then totalPages * pageSize else if dataLength.Some? && dataLength.value != 0 then dataLength.value else 0, pageSize))
    else None
  }

  /** `record.id || record.key || Math.random()`; None stands for the random key. */
  function RowKey(record: Value): (r: Option<Value>)
    ensures r.Some? <==> Truthy(Member(record, "id")) || Truthy(Member(record, "key"))
    ensures Truthy(Member(record, "id")) ==> r == Some(Member(record, "id"))
    ensures !Truthy(Member(record, "id")) && Truthy(Member(record, "key")) ==> r == Some(Member(record, "key"))
  {
    var id, key := Member(record, "id"), Member(record, "key");
    if Truthy(id) then Some(id) else if Truthy(key) then Some(key) else None
  }
}

/**
 What is checked and filled in before an outbound message is handed on
 (outbound_validate.go, internal/outbound/builder.go).
 */
module Outbound {
  import opened Subscriptions
  import opened Outcomes

  const UINT32_RANGE := 0x1_0000_0000

  type uint32 = x: nat | x < UINT32_RANGE

  const HEADER_ID_ZERO := "headerId_zero"
  const ORDER_ID_EMPTY := "orderId_empty"
  const ORDER_UPDATE_ID_ZERO := "orderUpdateId_zero"
  const ACTION_ID_EMPTY := "actionId_empty"
  const IDENTITY_MISMATCH := "identity_mismatch"

  datatype Validation = Validation(disabled: bool, allowZeroHeaderId: bool, skipIdentityCheck: bool)

  datatype Header = Header(headerId: uint32, timestamp: string, version: string, manufacturer: string,
                           serialNumber: string)

  function Invalid(reason: string): Option<Error> {
    Some(Root(OutboundValidationFailed, reason))
  }

  // ---- strings.TrimSpace ------------------------------------------------------------

  /** unicode.IsSpace */
  predicate IsSpace(c: char) {
    c in "\t\n\r \U{0B}\U{0C}\U{85}\U{A0}\U{1680}\U{2028}\U{2029}\U{202F}\U{205F}\U{3000}"
    || '\U{2000}' <= c <= '\U{200A}'
  }

  /** The White_Space characters of Unicode, by code point. */
  lemma SpaceCharacters(c: char)
    ensures var code := c as int;
            IsSpace(c) <==> 9 <= code <= 13 || 0x2000 <= code <= 0x200A
                            || code in {0x20, 0x85, 0xA0, 0x1680, 0x2028, 0x2029, 0x202F, 0x205F, 0x3000}
  {
  }

  function TrimLeft(s: string): string {
    if s != [] && IsSpace(s[0]) then TrimLeft(s[1..]) else s
  }

  function TrimRight(s: string): string {
    if s != [] && IsSpace(s[|s| - 1]) then TrimRight(s[..|s| - 1]) else s
  }

  function TrimSpace(s: string): string {
    TrimRight(TrimLeft(s))
  }

  ghost predicate Blank(s: string) {
    forall c | c in s :: IsSpace(c)
  }

  lemma {:induction false} TrimLeftKeeps(s: string)
    ensures Blank(TrimLeft(s)) <==> Blank(s)
  {
    hide IsSpace;
    if s != [] && IsSpace(s[0]) {
      TrimLeftKeeps(s[1..]);
      BlankConcat([s[0]], s[1..]);
      assert s == [s[0]] + s[1..];
    }
  }

  lemma {:induction false} TrimRightKeeps(s: string)
    ensures Blank(TrimRight(s)) <==> Blank(s)
    ensures TrimRight(s) == [] || !IsSpace(TrimRight(s)[|TrimRight(s)| - 1])
  {
    hide IsSpace;
    if s != [] && IsSpace(s[|s| - 1]) {
      TrimRightKeeps(s[..|s| - 1]);
      BlankConcat(s[..|s| - 1], [s[|s| - 1]]);
      assert s == s[..|s| - 1] + [s[|s| - 1]];
    }
  }

  lemma BlankConcat(a: string, b: string)
    ensures Blank(a + b) <==> Blank(a) && Blank(b)
  {
    hide IsSpace;
    assert forall c :: c in a + b <==> c in a || c in b;
  }

  /** An id counts as empty exactly when it consists of white space. */
  lemma TrimSpaceEmpty(s: string)
    ensures TrimSpace(s) == "" <==> Blank(s)
  {
    TrimLeftKeeps(s);
    TrimRightKeeps(TrimLeft(s));
    var t := TrimSpace(s);
    if t != "" {
      assert t[|t| - 1] in t;
    }
  }

  // ---- Validation ---------------------------------------------------------------------

  function ValidateHeader(headerId: uint32, msgMfr: string, msgSn: string, handleMfr: string, handleSn: string,
                          opts: Validation): Option<Error> {
    if !opts.allowZeroHeaderId && headerId == 0 then Invalid(HEADER_ID_ZERO)
    else if opts.skipIdentityCheck then None
    else if msgMfr != "" && msgMfr != handleMfr then Invalid(IDENTITY_MISMATCH)
    else if msgSn != "" && msgSn != handleSn then Invalid(IDENTITY_MISMATCH)
    else None
  }

  function ValidateOrder(h: Header, orderId: string, orderUpdateId: uint32, mfr: string, serial: string,
                         opts: Validation): Option<Error> {
    if opts.disabled then None
    else
      var err := ValidateHeader(h.headerId, h.manufacturer, h.serialNumber, mfr, serial, opts);
      if err.Some? then err
      else if TrimSpace(orderId) == "" then Invalid(ORDER_ID_EMPTY)
      else if orderUpdateId == 0 then Invalid(ORDER_UPDATE_ID_ZERO)
      else None
  }

  ghost predicate HeaderFits(h: Header, mfr: string, serial: string, opts: Validation) {
    && (h.headerId != 0 || opts.allowZeroHeaderId)
    && (opts.skipIdentityCheck || ((h.manufacturer == "" || h.manufacturer == mfr)
                                   && (h.serialNumber == "" || h.serialNumber == serial)))
  }

  /** An order passes exactly when every enabled check holds, and a refusal is always a validation error. */
  lemma OrderPasses(h: Header, orderId: string, orderUpdateId: uint32, mfr: string, serial: string, opts: Validation)
    ensures var err := ValidateOrder(h, orderId, orderUpdateId, mfr, serial, opts);
            && (err.None?
                <==> opts.disabled || (HeaderFits(h, mfr, serial, opts) && !Blank(orderId) && orderUpdateId != 0))
            && (err.Some? ==> Cause(err.value) == OutboundValidationFailed && ClassifyPublish(err) == NotStarted)
  {
    TrimSpaceEmpty(orderId);
    var err := ValidateOrder(h, orderId, orderUpdateId, mfr, serial, opts);
    if err.Some? {
      ClassifyMeans(err.value);
    }
  }

  /** Which reason a refused header gives: the first failed check, in the order of the code. */
  lemma HeaderReasons(h: Header, mfr: string, serial: string, opts: Validation)
    ensures var err := ValidateHeader(h.headerId, h.manufacturer, h.serialNumber, mfr, serial, opts);
            if h.headerId == 0 && !opts.allowZeroHeaderId then
              err == Some(Root(OutboundValidationFailed, "headerId_zero"))
            else if !opts.skipIdentityCheck && ((h.manufacturer != "" && h.manufacturer != mfr)
                                                || (h.serialNumber != "" && h.serialNumber != serial)) then
              err == Some(Root(OutboundValidationFailed, "identity_mismatch"))
            else err.None?
  {
  }

  /** Which reason a refused order gives. */
  lemma OrderReasons(h: Header, orderId: string, orderUpdateId: uint32, mfr: string, serial: string, opts: Validation)
    ensures var err, header := ValidateOrder(h, orderId, orderUpdateId, mfr, serial, opts),
                               ValidateHeader(h.headerId, h.manufacturer, h.serialNumber, mfr, serial, opts);
            if opts.disabled then err.None?
            else if header.Some? then err == header
            else if Blank(orderId) then err == Some(Root(OutboundValidationFailed, "orderId_empty"))
            else if orderUpdateId == 0 then err == Some(Root(OutboundValidationFailed, "orderUpdateId_zero"))
            else err.None?
  {
    TrimSpaceEmpty(orderId);
  }

  /** Which reason refused instant actions give. */
  lemma ActionsReasons(h: Header, actionIds: seq<string>, mfr: string, serial: string, opts: Validation)
    ensures var err, header := ActionsVerdict(h, actionIds, mfr, serial, opts),
                               ValidateHeader(h.headerId, h.manufacturer, h.serialNumber, mfr, serial, opts);
            if opts.disabled then err.None?
            else if header.Some? then err == header
            else if forall id | id in actionIds :: !Blank(id) then err.None?
            else err == Some(Root(OutboundValidationFailed, "actionId_empty"))
  {
  }

  /** The verdict on instant actions: the header's, then a blank action id anywhere. */
  ghost function ActionsVerdict(h: Header, actionIds: seq<string>, mfr: string, serial: string,
        opts: Validation): Option<Error> {
    if opts.disabled then None
    else
      var err := ValidateHeader(h.headerId, h.manufacturer, h.serialNumber, mfr, serial, opts);
      if err.Some? then err
      else if exists id :: id in actionIds && Blank(id) then Invalid(ACTION_ID_EMPTY)
      else None
  }

  /** The loop over the actions stops at the first blank id. */
  method ValidateInstantActions(h: Header, actionIds: seq<string>, mfr: string, serial: string, opts: Validation)
    returns (err: Option<Error>, index: nat)
    ensures err == ActionsVerdict(h, actionIds, mfr, serial, opts)
    ensures err.None?
            <==> opts.disabled || (HeaderFits(h, mfr, serial, opts) && forall id | id in actionIds :: !Blank(id))
    ensures err == Invalid(ACTION_ID_EMPTY) ==>
              index < |actionIds| && Blank(actionIds[index]) && forall j | 0 <= j < index :: !Blank(actionIds[j])
  {
    index := 0;
    if opts.disabled {
      return None, 0;
    }
    err := ValidateHeader(h.headerId, h.manufacturer, h.serialNumber, mfr, serial, opts);
    if err.Some? {
      return;
    }
    while index < |actionIds|
      invariant 0 <= index <= |actionIds| && forall j | 0 <= j < index :: !Blank(actionIds[j])
    {
      TrimSpaceEmpty(actionIds[index]);
      if TrimSpace(actionIds[index]) == "" {
        assert actionIds[index] in actionIds;
        return Invalid(ACTION_ID_EMPTY), index;
      }
      index := index + 1;
    }
    return None, index;
  }

  // ---- The builder ------------------------------------------------------------------------

  /** ApplyHeader: identity blanks are filled, version and timestamp always set, the id never. */
  function Prepared(h: Header, mfr: string, serial: string, version: string, now: string): Header {
    Header(h.headerId, now, version,
           if h.manufacturer == "" then mfr else h.manufacturer,
           if h.serialNumber == "" then serial else h.serialNumber)
  }

  /**
   What goes out with a validated message: the caller's header id, the handle's version and the time of sending,
   and for each part of the identity what the caller gave or, where that is blank, the handle's. That is the
   handle's own identity exactly when the identity check has not been switched off or was not needed.
   */
  lemma WireIdentity(h: Header, orderId: string, orderUpdateId: uint32, mfr: string, serial: string, opts: Validation,
                     version: string, now: string)
    requires ValidateOrder(h, orderId, orderUpdateId, mfr, serial, opts).None?
    ensures var p := Prepared(h, mfr, serial, version, now);
            && (!opts.disabled && !opts.skipIdentityCheck ==> p.manufacturer == mfr && p.serialNumber == serial)
            && (p.manufacturer == mfr && p.serialNumber == serial
                <==> HeaderFits(h, mfr, serial, Validation(false, true, false)))
            && p.headerId == h.headerId && p.version == version && p.timestamp == now
            && p.manufacturer == (if h.manufacturer != "" then h.manufacturer else mfr)
            && p.serialNumber == (if h.serialNumber != "" then h.serialNumber else serial)
            && Prepared(p, mfr, serial, version, now) == p
  {
    OrderPasses(h, orderId, orderUpdateId, mfr, serial, opts);
  }
}

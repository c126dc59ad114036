/** Creation of a contact joint and the two parameter accessors
    `dJointGetContactParam` / `dJointSetContactParam`. */
module Params {
  import opened ContactTypes

  /** The parameter selector: the two this joint knows, and every other. */
  datatype Param = ParamERP | ParamCFM | ParamOther

  /** A new contact joint: ERP and CFM start at the world's defaults and no
      row count is cached yet. The contact, the bodies and the reverse flag
      are attached by the engine after construction; they are inputs here. */
  function NewContactJoint(w: WorldParams, contact: Contact, reverse: bool,
                           body1: Body, body2: Option<Body>): (j: ContactJoint)
    ensures GetContactParam(j, ParamERP) == w.globalErp
    ensures GetContactParam(j, ParamCFM) == w.globalCfm
    ensures j.theM.None?
    ensures j.contact == contact && j.reverse == reverse && j.body1 == body1 && j.body2 == body2
  {
    ContactJoint(contact, w.globalErp, w.globalCfm, None, reverse, body1, body2)
  }

  /** `dJointGetContactParam`. */
  function GetContactParam(j: ContactJoint, p: Param): (v: real)
    ensures p == ParamERP ==> v == j.erp
    ensures p == ParamCFM ==> v == j.cfm
    ensures p == ParamOther ==> v == 0.0
  {
    match p
    case ParamERP => j.erp
    case ParamCFM => j.cfm
    case ParamOther => 0.0
  }

  /** `dJointSetContactParam`: only the selected field can change; an
      unknown selector changes nothing. */
  function SetContactParam(j: ContactJoint, p: Param, value: real): (r: ContactJoint)
    ensures r.(erp := j.erp, cfm := j.cfm) == j
    ensures p != ParamERP ==> r.erp == j.erp
    ensures p != ParamCFM ==> r.cfm == j.cfm
    ensures p == ParamOther ==> r == j
  {
    match p
    case ParamERP => j.(erp := value)
    case ParamCFM => j.(cfm := value)
    case ParamOther => j
  }

  /** Reading a parameter just set returns the value set; any other
      selector reads 0. */
  lemma SetThenGet(j: ContactJoint, p: Param, value: real)
    ensures GetContactParam(SetContactParam(j, p, value), p) == (if p == ParamOther then 0.0 else value)
  {
  }

  /** Setting one parameter does not change what another one reads. */
  lemma SetLeavesOtherParams(j: ContactJoint, p: Param, q: Param, value: real)
    requires p != q
    ensures GetContactParam(SetContactParam(j, p, value), q) == GetContactParam(j, q)
  {
  }

  /** Writing back what was read leaves the joint as it was. */
  lemma GetThenSet(j: ContactJoint, p: Param)
    ensures SetContactParam(j, p, GetContactParam(j, p)) == j
  {
  }
}

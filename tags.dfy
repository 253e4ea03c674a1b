/** The GEDCOM tags the decoder's tag tables know by name. A tuple's tag arrives
    classified: each known name is its own constructor and every other name is
    `Other(name)`. `Classify` is that classification and `Name` gives the text back. */
module Tags {
  datatype Tag =
    | ABBR
    | ADDR
    | ADOP
    | ADR1
    | ADR2
    | AGE
    | AGNC
    | ANCE
    | ANUL
    | AUTH
    | BAPM
    | BARM
    | BASM
    | BIRT
    | BLES
    | BURI
    | CAST
    | CAUS
    | CENS
    | CHAN
    | CHAR
    | CHIL
    | CHR
    | CHRA
    | CITY
    | CONC
    | CONF
    | CONT
    | COPR
    | CORP
    | CREM
    | CTRY
    | DATA
    | DATE
    | DATV
    | DEAT
    | DESC
    | DEST
    | DIV
    | DIVF
    | DSCR
    | EDUC
    | EMAIL
    | EMIG
    | ENGA
    | EVEN
    | FACT
    | FAM
    | FAMC
    | FAMF
    | FAMS
    | FCOM
    | FILE
    | FILM
    | FILN
    | FORM
    | UserFREL
    | GEDC
    | GRAD
    | HEAD
    | HUSB
    | IDNO
    | IMMI
    | INDI
    | LANG
    | LATI
    | LOCA
    | LONG
    | MAP
    | MARB
    | MARC
    | MARL
    | MARR
    | MARS
    | MEDI
    | UserMILT
    | UserMREL
    | NAME
    | NATI
    | NATU
    | NCHI
    | NMR
    | NOTE
    | NPFX
    | NSFX
    | OBJE
    | OCCU
    | ORDI
    | ORDN
    | PAGE
    | PEDI
    | PERI
    | PHON
    | UserPHOTO
    | PLAC
    | POST
    | PROB
    | PROP
    | PUBL
    | QUAY
    | RELI
    | REPO
    | RESI
    | RETI
    | SEX
    | SOUR
    | SSN
    | STAE
    | SUBM
    | SUBN
    | TEMP
    | TEXT
    | UserTEXT
    | TIME
    | TITL
    | TRLR
    | TYPE
    | URL
    | VERS
    | VOL
    | WIFE
    | WILL
    | Other(name: string)

  /** The tag's text; user-defined tags (a leading underscore) keep it. */
  function Name(t: Tag): string
  {
    match t
    case ABBR => "ABBR"
    case ADDR => "ADDR"
    case ADOP => "ADOP"
    case ADR1 => "ADR1"
    case ADR2 => "ADR2"
    case AGE => "AGE"
    case AGNC => "AGNC"
    case ANCE => "ANCE"
    case ANUL => "ANUL"
    case AUTH => "AUTH"
    case BAPM => "BAPM"
    case BARM => "BARM"
    case BASM => "BASM"
    case BIRT => "BIRT"
    case BLES => "BLES"
    case BURI => "BURI"
    case CAST => "CAST"
    case CAUS => "CAUS"
    case CENS => "CENS"
    case CHAN => "CHAN"
    case CHAR => "CHAR"
    case CHIL => "CHIL"
    case CHR => "CHR"
    case CHRA => "CHRA"
    case CITY => "CITY"
    case CONC => "CONC"
    case CONF => "CONF"
    case CONT => "CONT"
    case COPR => "COPR"
    case CORP => "CORP"
    case CREM => "CREM"
    case CTRY => "CTRY"
    case DATA => "DATA"
    case DATE => "DATE"
    case DATV => "DATV"
    case DEAT => "DEAT"
    case DESC => "DESC"
    case DEST => "DEST"
    case DIV => "DIV"
    case DIVF => "DIVF"
    case DSCR => "DSCR"
    case EDUC => "EDUC"
    case EMAIL => "EMAIL"
    case EMIG => "EMIG"
    case ENGA => "ENGA"
    case EVEN => "EVEN"
    case FACT => "FACT"
    case FAM => "FAM"
    case FAMC => "FAMC"
    case FAMF => "FAMF"
    case FAMS => "FAMS"
    case FCOM => "FCOM"
    case FILE => "FILE"
    case FILM => "FILM"
    case FILN => "FILN"
    case FORM => "FORM"
    case UserFREL => "_FREL"
    case GEDC => "GEDC"
    case GRAD => "GRAD"
    case HEAD => "HEAD"
    case HUSB => "HUSB"
    case IDNO => "IDNO"
    case IMMI => "IMMI"
    case INDI => "INDI"
    case LANG => "LANG"
    case LATI => "LATI"
    case LOCA => "LOCA"
    case LONG => "LONG"
    case MAP => "MAP"
    case MARB => "MARB"
    case MARC => "MARC"
    case MARL => "MARL"
    case MARR => "MARR"
    case MARS => "MARS"
    case MEDI => "MEDI"
    case UserMILT => "_MILT"
    case UserMREL => "_MREL"
    case NAME => "NAME"
    case NATI => "NATI"
    case NATU => "NATU"
    case NCHI => "NCHI"
    case NMR => "NMR"
    case NOTE => "NOTE"
    case NPFX => "NPFX"
    case NSFX => "NSFX"
    case OBJE => "OBJE"
    case OCCU => "OCCU"
    case ORDI => "ORDI"
    case ORDN => "ORDN"
    case PAGE => "PAGE"
    case PEDI => "PEDI"
    case PERI => "PERI"
    case PHON => "PHON"
    case UserPHOTO => "_PHOTO"
    case PLAC => "PLAC"
    case POST => "POST"
    case PROB => "PROB"
    case PROP => "PROP"
    case PUBL => "PUBL"
    case QUAY => "QUAY"
    case RELI => "RELI"
    case REPO => "REPO"
    case RESI => "RESI"
    case RETI => "RETI"
    case SEX => "SEX"
    case SOUR => "SOUR"
    case SSN => "SSN"
    case STAE => "STAE"
    case SUBM => "SUBM"
    case SUBN => "SUBN"
    case TEMP => "TEMP"
    case TEXT => "TEXT"
    case UserTEXT => "_TEXT"
    case TIME => "TIME"
    case TITL => "TITL"
    case TRLR => "TRLR"
    case TYPE => "TYPE"
    case URL => "URL"
    case VERS => "VERS"
    case VOL => "VOL"
    case WIFE => "WIFE"
    case WILL => "WILL"
    case Other(name) => name
  }

  /** The classification of a tag's text. */
  function Classify(s: string): (t: Tag)
    ensures t.Other? ==> t.name == s
  {
    match s
    case "ABBR" => ABBR
    case "ADDR" => ADDR
    case "ADOP" => ADOP
    case "ADR1" => ADR1
    case "ADR2" => ADR2
    case "AGE" => AGE
    case "AGNC" => AGNC
    case "ANCE" => ANCE
    case "ANUL" => ANUL
    case "AUTH" => AUTH
    case "BAPM" => BAPM
    case "BARM" => BARM
    case "BASM" => BASM
    case "BIRT" => BIRT
    case "BLES" => BLES
    case "BURI" => BURI
    case "CAST" => CAST
    case "CAUS" => CAUS
    case "CENS" => CENS
    case "CHAN" => CHAN
    case "CHAR" => CHAR
    case "CHIL" => CHIL
    case "CHR" => CHR
    case "CHRA" => CHRA
    case "CITY" => CITY
    case "CONC" => CONC
    case "CONF" => CONF
    case "CONT" => CONT
    case "COPR" => COPR
    case "CORP" => CORP
    case "CREM" => CREM
    case "CTRY" => CTRY
    case "DATA" => DATA
    case "DATE" => DATE
    case "DATV" => DATV
    case "DEAT" => DEAT
    case "DESC" => DESC
    case "DEST" => DEST
    case "DIV" => DIV
    case "DIVF" => DIVF
    case "DSCR" => DSCR
    case "EDUC" => EDUC
    case "EMAIL" => EMAIL
    case "EMIG" => EMIG
    case "ENGA" => ENGA
    case "EVEN" => EVEN
    case "FACT" => FACT
    case "FAM" => FAM
    case "FAMC" => FAMC
    case "FAMF" => FAMF
    case "FAMS" => FAMS
    case "FCOM" => FCOM
    case "FILE" => FILE
    case "FILM" => FILM
    case "FILN" => FILN
    case "FORM" => FORM
    case "_FREL" => UserFREL
    case "GEDC" => GEDC
    case "GRAD" => GRAD
    case "HEAD" => HEAD
    case "HUSB" => HUSB
    case "IDNO" => IDNO
    case "IMMI" => IMMI
    case "INDI" => INDI
    case "LANG" => LANG
    case "LATI" => LATI
    case "LOCA" => LOCA
    case "LONG" => LONG
    case "MAP" => MAP
    case "MARB" => MARB
    case "MARC" => MARC
    case "MARL" => MARL
    case "MARR" => MARR
    case "MARS" => MARS
    case "MEDI" => MEDI
    case "_MILT" => UserMILT
    case "_MREL" => UserMREL
    case "NAME" => NAME
    case "NATI" => NATI
    case "NATU" => NATU
    case "NCHI" => NCHI
    case "NMR" => NMR
    case "NOTE" => NOTE
    case "NPFX" => NPFX
    case "NSFX" => NSFX
    case "OBJE" => OBJE
    case "OCCU" => OCCU
    case "ORDI" => ORDI
    case "ORDN" => ORDN
    case "PAGE" => PAGE
    case "PEDI" => PEDI
    case "PERI" => PERI
    case "PHON" => PHON
    case "_PHOTO" => UserPHOTO
    case "PLAC" => PLAC
    case "POST" => POST
    case "PROB" => PROB
    case "PROP" => PROP
    case "PUBL" => PUBL
    case "QUAY" => QUAY
    case "RELI" => RELI
    case "REPO" => REPO
    case "RESI" => RESI
    case "RETI" => RETI
    case "SEX" => SEX
    case "SOUR" => SOUR
    case "SSN" => SSN
    case "STAE" => STAE
    case "SUBM" => SUBM
    case "SUBN" => SUBN
    case "TEMP" => TEMP
    case "TEXT" => TEXT
    case "_TEXT" => UserTEXT
    case "TIME" => TIME
    case "TITL" => TITL
    case "TRLR" => TRLR
    case "TYPE" => TYPE
    case "URL" => URL
    case "VERS" => VERS
    case "VOL" => VOL
    case "WIFE" => WIFE
    case "WILL" => WILL
    case _ => Other(s)
  }
}

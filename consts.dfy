// The names of the catalogue algorithms and the chunk-size constants.
module Consts {
  /** Bytes in one SIMD register (`CRC_CHUNK_SIZE`). */
  const CrcChunkSize: nat := 16
  /** Half a SIMD register (`CRC_HALF_CHUNK_SIZE`). */
  const CrcHalfChunkSize: nat := 8
  /** Inputs of at least this many bytes take the bulk folding path (`CRC_LARGE_CHUNK_THRESHOLD`). */
  const CrcLargeChunkThreshold: nat := 256

  const NameCrc16Arc: string := "CRC-16/ARC"
  const NameCrc16Cdma2000: string := "CRC-16/CDMA2000"
  const NameCrc16Cms: string := "CRC-16/CMS"
  const NameCrc16Dds110: string := "CRC-16/DDS-110"
  const NameCrc16DectR: string := "CRC-16/DECT-R"
  const NameCrc16DectX: string := "CRC-16/DECT-X"
  const NameCrc16Dnp: string := "CRC-16/DNP"
  const NameCrc16En13757: string := "CRC-16/EN-13757"
  const NameCrc16Genibus: string := "CRC-16/GENIBUS"
  const NameCrc16Gsm: string := "CRC-16/GSM"
  const NameCrc16Ibm3740: string := "CRC-16/IBM-3740"
  const NameCrc16IbmSdlc: string := "CRC-16/IBM-SDLC"
  const NameCrc16IsoIec144433A: string := "CRC-16/ISO-IEC-14443-3-A"
  const NameCrc16Kermit: string := "CRC-16/KERMIT"
  const NameCrc16Lj1200: string := "CRC-16/LJ1200"
  const NameCrc16M17: string := "CRC-16/M17"
  const NameCrc16MaximDow: string := "CRC-16/MAXIM-DOW"
  const NameCrc16Mcrf4xx: string := "CRC-16/MCRF4XX"
  const NameCrc16Modbus: string := "CRC-16/MODBUS"
  const NameCrc16Nrsc5: string := "CRC-16/NRSC-5"
  const NameCrc16OpensafetyA: string := "CRC-16/OPENSAFETY-A"
  const NameCrc16OpensafetyB: string := "CRC-16/OPENSAFETY-B"
  const NameCrc16Profibus: string := "CRC-16/PROFIBUS"
  const NameCrc16Riello: string := "CRC-16/RIELLO"
  const NameCrc16SpiFujitsu: string := "CRC-16/SPI-FUJITSU"
  const NameCrc16T10Dif: string := "CRC-16/T10-DIF"
  const NameCrc16Teledisk: string := "CRC-16/TELEDISK"
  const NameCrc16Tms37157: string := "CRC-16/TMS37157"
  const NameCrc16Umts: string := "CRC-16/UMTS"
  const NameCrc16Usb: string := "CRC-16/USB"
  const NameCrc16X25: string := "CRC-16/X-25"
  const NameCrc16Xmodem: string := "CRC-16/XMODEM"
  const NameCrc32Aixm: string := "CRC-32/AIXM"
  const NameCrc32Autosar: string := "CRC-32/AUTOSAR"
  const NameCrc32Base91D: string := "CRC-32/BASE91-D"
  const NameCrc32Bzip2: string := "CRC-32/BZIP2"
  const NameCrc32CdRomEdc: string := "CRC-32/CD-ROM-EDC"
  const NameCrc32Cksum: string := "CRC-32/CKSUM"
  const NameCrc32Iscsi: string := "CRC-32/ISCSI"
  const NameCrc32IsoHdlc: string := "CRC-32/ISO-HDLC"
  const NameCrc32Jamcrc: string := "CRC-32/JAMCRC"
  const NameCrc32Mef: string := "CRC-32/MEF"
  const NameCrc32Mpeg2: string := "CRC-32/MPEG-2"
  const NameCrc32Xfer: string := "CRC-32/XFER"
  const NameCrc64Ecma182: string := "CRC-64/ECMA-182"
  const NameCrc64GoIso: string := "CRC-64/GO-ISO"
  const NameCrc64Ms: string := "CRC-64/MS"
  const NameCrc64Nvme: string := "CRC-64/NVME"
  const NameCrc64Redis: string := "CRC-64/REDIS"
  const NameCrc64We: string := "CRC-64/WE"
  const NameCrc64Xz: string := "CRC-64/XZ"
}
